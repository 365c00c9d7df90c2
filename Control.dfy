/** The control-plane operations with logic of their own (src/pinecone/control.rs): index
    creation, the readiness polling loop, and index configuration. The REST calls and the
    clock are injected: a describe call returns the next answer of an oracle and takes a
    positive number of milliseconds, and sleeping advances the clock by exactly the time slept. */
module Control {
  import opened Wrappers
  import opened Errors
  import opened Metrics
  import opened Models

  datatype DeletionProtection = Enabled | Disabled

  datatype Cloud = Gcp | Aws | Azure

  /** `Cloud::default()` (openapi/src/models/serverless_spec.rs). */
  const DefaultCloud: Cloud := Gcp

  datatype ServerlessSpec = ServerlessSpec(cloud: Cloud, region: string)

  datatype PodSpecMetadataConfig = PodSpecMetadataConfig(indexed: Option<seq<string>>)

  datatype PodSpec = PodSpec(
    environment: string,
    replicas: int,
    shards: int,
    podType: string,
    pods: int,
    metadataConfig: Option<PodSpecMetadataConfig>,
    sourceCollection: Option<string>)

  /** The serverless/pod union of a create request. */
  datatype IndexSpec = IndexSpec(serverless: Option<ServerlessSpec>, pod: Option<PodSpec>)

  datatype CreateIndexRequest = CreateIndexRequest(
    name: string,
    dimension: int,
    deletionProtection: Option<DeletionProtection>,
    metric: Option<RequestMetric>,
    spec: Option<IndexSpec>)

  datatype ConfigureIndexRequestSpecPod = ConfigureIndexRequestSpecPod(replicas: Option<int>, podType: Option<string>)

  datatype ConfigureIndexRequestSpec = ConfigureIndexRequestSpec(pod: ConfigureIndexRequestSpecPod)

  datatype ConfigureIndexRequest = ConfigureIndexRequest(
    spec: Option<ConfigureIndexRequestSpec>,
    deletionProtection: Option<DeletionProtection>)

  datatype IndexStatus = IndexStatus(ready: bool, state: string)

  datatype IndexModel = IndexModel(
    name: string,
    dimension: int,
    metric: Metric,
    host: string,
    deletionProtection: Option<DeletionProtection>,
    spec: IndexSpec,
    status: IndexStatus)

  /** What one REST call answers. */
  type ApiResponse = Result<IndexModel, OpenApiError>

  /** How long one describe call takes: never zero, so every poll moves the clock. */
  type Latency = x: nat | 1 <= x witness 1

  /** The calls the client makes to the control plane, in order. */
  datatype Call = Describe(name: string) | Create(createRequest: CreateIndexRequest) | Configure(name: string, configureRequest: ConfigureIndexRequest)

  /** The longest sleep between two polls. */
  const MaxSleep: Millis := 5000

  const NoConfigurationMessage: string :=
    "At least one of deletion_protection, number of replicas, or pod type must be provided"

  function NotReadyMessage(name: string): string {
    "Index \"" + name + "\" not ready"
  }

  function Min(a: nat, b: nat): nat {
    if a < b then a else b
  }

  /** `.map_err(|e| PineconeError::from(e))` on a REST answer. */
  function MapApiResponse(response: ApiResponse): (r: Result<IndexModel, PineconeError>)
    ensures r.Success? <==> response.Success?
    ensures r.Success? ==> r.value == response.value
    ensures r.Failure? ==> r.error == FromOpenApiError(response.error)
  {
    match response
    case Success(index) => Success(index)
    case Failure(e) => Failure(FromOpenApiError(e))
  }

  /** What `is_ready` reads from one describe answer: a failed call counts as not ready. */
  predicate Ready(answer: ApiResponse) {
    answer.Success? && answer.value.status.ready
  }

  // ---------------------------------------------------------------------------
  // Request construction

  /** The request of `create_serverless_index`. */
  function ServerlessIndexRequest(name: string, dimension: int, metric: Metric, cloud: Cloud, region: string,
                                  deletionProtection: DeletionProtection): (r: CreateIndexRequest)
    ensures r.name == name && r.dimension == dimension
    ensures r.deletionProtection == Some(deletionProtection)
    ensures r.metric.Some? && FromRequestMetric(r.metric.value) == metric
    ensures r.spec.Some? && r.spec.value.pod.None? && r.spec.value.serverless.Some?
    ensures r.spec.value.serverless.value.cloud == cloud && r.spec.value.serverless.value.region == region
  {
    var spec := IndexSpec(Some(ServerlessSpec(cloud, region)), None);
    CreateIndexRequest(name, dimension, Some(deletionProtection), Some(ToRequestMetric(metric)), Some(spec))
  }

  /** The request of `create_pod_index`. */
  function PodIndexRequest(name: string, dimension: int, metric: Metric, environment: string, podType: string,
                           pods: int, replicas: int, shards: int, deletionProtection: DeletionProtection,
                           metadataIndexed: Option<seq<string>>, sourceCollection: Option<string>): (r: CreateIndexRequest)
    ensures r.name == name && r.dimension == dimension
    ensures r.deletionProtection == Some(deletionProtection)
    ensures r.metric.Some? && FromRequestMetric(r.metric.value) == metric
    ensures r.spec.Some? && r.spec.value.serverless.None? && r.spec.value.pod.Some?
    ensures var pod := r.spec.value.pod.value;
      && pod.environment == environment && pod.podType == podType && pod.pods == pods
      && pod.replicas == replicas && pod.shards == shards && pod.sourceCollection == sourceCollection
      && pod.metadataConfig == Some(PodSpecMetadataConfig(metadataIndexed))
  {
    var podSpec := PodSpec(environment, replicas, shards, podType, pods,
                           Some(PodSpecMetadataConfig(metadataIndexed)), sourceCollection);
    var spec := IndexSpec(None, Some(podSpec));
    CreateIndexRequest(name, dimension, Some(deletionProtection), Some(ToRequestMetric(metric)), Some(spec))
  }

  /** The request of `configure_index`, or the error it returns before any call when no
      option is given. */
  function ConfigureRequestFor(deletionProtection: Option<DeletionProtection>, replicas: Option<int>,
                               podType: Option<string>): (r: Result<ConfigureIndexRequest, PineconeError>)
    ensures r.Failure? <==> deletionProtection.None? && replicas.None? && podType.None?
    ensures r.Failure? ==> r.error == InvalidConfigurationError(NoConfigurationMessage)
    ensures r.Success? ==> r.value.deletionProtection == deletionProtection
    ensures r.Success? ==> (r.value.spec.None? <==> replicas.None? && podType.None?)
    ensures r.Success? && r.value.spec.Some? ==>
      r.value.spec.value.pod.replicas == replicas && r.value.spec.value.pod.podType == podType
  {
    if replicas.None? && podType.None? && deletionProtection.None? then
      Failure(InvalidConfigurationError(NoConfigurationMessage))
    else
      var spec :=
        match (replicas, podType)
        case (Some(n), Some(t)) => Some(ConfigureIndexRequestSpec(ConfigureIndexRequestSpecPod(Some(n), Some(t))))
        case (Some(n), None) => Some(ConfigureIndexRequestSpec(ConfigureIndexRequestSpecPod(Some(n), None)))
        case (None, Some(t)) => Some(ConfigureIndexRequestSpec(ConfigureIndexRequestSpecPod(None, Some(t))))
        case (None, None) => None;
      Success(ConfigureIndexRequest(spec, deletionProtection))
  }

  /** A serverless creation request is never a pod creation request. */
  lemma CreationSpecsDiffer(name: string, dimension: int, metric: Metric, cloud: Cloud, region: string,
                            deletionProtection: DeletionProtection,
                            name': string, dimension': int, metric': Metric, environment: string, podType: string,
                            pods: int, replicas: int, shards: int, deletionProtection': DeletionProtection,
                            metadataIndexed: Option<seq<string>>, sourceCollection: Option<string>)
    ensures ServerlessIndexRequest(name, dimension, metric, cloud, region, deletionProtection) !=
            PodIndexRequest(name', dimension', metric', environment, podType, pods, replicas, shards,
                            deletionProtection', metadataIndexed, sourceCollection)
  {
  }

  // ---------------------------------------------------------------------------
  // Polling specification

  /** The clock and the number of describe calls issued when a polling run ends, and its outcome. */
  datatype PollResult = PollResult(outcome: Result<(), PineconeError>, now: nat, polls: nat)

  /** The `WaitFor(duration)` loop of `handle_poll_index`, started at `start` and continued at
      time `now` with `polls` describe calls issued so far. Each round polls; a ready answer
      ends the run; a not-ready answer ends it with a timeout once the elapsed time is strictly
      greater than `duration`, and otherwise the loop sleeps for the remaining time, at most
      `MaxSleep`. */
  function PollRun(answers: nat -> ApiResponse, latency: nat -> Latency, name: string, duration: Millis,
                   start: nat, now: nat, polls: nat): PollResult
    requires start <= now <= start + duration
    decreases start + duration - now
  {
    var t := now + latency(polls);
    if Ready(answers(polls)) then PollResult(Success(()), t, polls + 1)
    else if duration < t - start then PollResult(Failure(TimeoutError(NotReadyMessage(name))), t, polls + 1)
    else PollRun(answers, latency, name, duration, start, t + Min(duration - (t - start), MaxSleep), polls + 1)
  }

  /** `handle_poll_index` under either wait policy, starting at time `now`. */
  function WaitOutcome(answers: nat -> ApiResponse, latency: nat -> Latency, name: string, timeout: WaitPolicy,
                       now: nat, polls: nat): PollResult
  {
    match timeout
    case NoWait => PollResult(Success(()), now, polls)
    case WaitFor(duration) => PollRun(answers, latency, name, duration, now, now, polls)
  }

  /** The calls of `n` polls of index `name`. */
  function Describes(name: string, n: nat): (r: seq<Call>)
    ensures |r| == n
    ensures forall i :: 0 <= i < n ==> r[i] == Describe(name)
  {
    if n == 0 then [] else Describes(name, n - 1) + [Describe(name)]
  }

  /** Every polling run makes at least one poll and stops at the first ready answer: all earlier
      polls of the run were not ready and it succeeds exactly when its last poll was ready.
      The only error is the timeout error, returned when the elapsed time is strictly greater
      than the duration, and the run ends at most one poll after the deadline. */
  lemma {:induction false} PollRunOutcome(answers: nat -> ApiResponse, latency: nat -> Latency, name: string,
                                          duration: Millis, start: nat, now: nat, polls: nat)
    requires start <= now <= start + duration
    ensures var r := PollRun(answers, latency, name, duration, start, now, polls);
      && r.polls > polls
      && r.now >= now + (r.polls - polls)
      && (forall k :: polls <= k < r.polls - 1 ==> !Ready(answers(k)))
      && (r.outcome.Success? <==> Ready(answers(r.polls - 1)))
      && (r.outcome.Failure? ==> r.outcome.error == TimeoutError(NotReadyMessage(name)) && r.now - start > duration)
      && r.now <= start + duration + latency(r.polls - 1)
    decreases start + duration - now
  {
    var t := now + latency(polls);
    if !Ready(answers(polls)) && duration >= t - start {
      PollRunOutcome(answers, latency, name, duration, start, t + Min(duration - (t - start), MaxSleep), polls + 1);
    }
  }

  /** A not-ready poll that lands exactly on the deadline keeps waiting: the loop sleeps for
      zero milliseconds and polls again. */
  lemma EqualityKeepsWaiting(answers: nat -> ApiResponse, latency: nat -> Latency, name: string,
                             duration: Millis, start: nat, now: nat, polls: nat)
    requires start <= now <= start + duration
    requires !Ready(answers(polls)) && now + latency(polls) == start + duration
    ensures PollRun(answers, latency, name, duration, start, now, polls) ==
            PollRun(answers, latency, name, duration, start, start + duration, polls + 1)
  {
  }

  /** Waiting 7 seconds for an index that stays not ready, with describe calls fast enough
      (the first two together within 2 seconds, the third under a second): three polls, at about
      0s, 5s and 7s, then a timeout between 7 and 8 seconds after the start. */
  lemma SevenSecondWait(answers: nat -> ApiResponse, latency: nat -> Latency, name: string, start: nat, polls: nat)
    requires !Ready(answers(polls)) && !Ready(answers(polls + 1)) && !Ready(answers(polls + 2))
    requires latency(polls) + latency(polls + 1) <= 2000
    requires latency(polls + 2) < 1000
    ensures var r := PollRun(answers, latency, name, 7000, start, start, polls);
      && r.outcome == Failure(TimeoutError(NotReadyMessage(name)))
      && r.polls == polls + 3
      && 7000 <= r.now - start < 8000
  {
    var t1 := start + latency(polls);
    var n1 := t1 + Min(7000 - (t1 - start), MaxSleep);
    assert n1 == start + latency(polls) + 5000;
    var t2 := n1 + latency(polls + 1);
    var n2 := t2 + Min(7000 - (t2 - start), MaxSleep);
    assert n2 == start + 7000;
    assert PollRun(answers, latency, name, 7000, start, n2, polls + 2) ==
           PollResult(Failure(TimeoutError(NotReadyMessage(name))), start + 7000 + latency(polls + 2), polls + 3);
    assert PollRun(answers, latency, name, 7000, start, n1, polls + 1) ==
           PollRun(answers, latency, name, 7000, start, n2, polls + 2);
  }

  // ---------------------------------------------------------------------------
  // The client side of the control plane

  class ControlPlane {
    /** The injected clock, in milliseconds. */
    var now: nat
    /** Describe calls issued so far: the next one gets `answers(polls)`. */
    var polls: nat
    /** Every call made, in order. */
    var log: seq<Call>

    const answers: nat -> ApiResponse
    const latency: nat -> Latency
    const createResponse: CreateIndexRequest -> ApiResponse
    const configureResponse: (string, ConfigureIndexRequest) -> ApiResponse

    constructor (answers: nat -> ApiResponse, latency: nat -> Latency,
                 createResponse: CreateIndexRequest -> ApiResponse,
                 configureResponse: (string, ConfigureIndexRequest) -> ApiResponse)
      ensures now == 0 && polls == 0 && log == []
      ensures this.answers == answers && this.latency == latency
      ensures this.createResponse == createResponse && this.configureResponse == configureResponse
    {
      now := 0;
      polls := 0;
      log := [];
      this.answers := answers;
      this.latency := latency;
      this.createResponse := createResponse;
      this.configureResponse := configureResponse;
    }

    /** `is_ready`: one describe call. */
    method IsReady(name: string) returns (ready: bool)
      modifies this
      ensures ready == Ready(answers(old(polls)))
      ensures now == old(now) + latency(old(polls)) && polls == old(polls) + 1
      ensures log == old(log) + [Describe(name)]
    {
      var answer := answers(polls);
      now := now + latency(polls);
      polls := polls + 1;
      log := log + [Describe(name)];
      ready := match answer case Success(index) => index.status.ready case Failure(_) => false;
    }

    /** `handle_poll_index`. */
    method HandlePollIndex(name: string, timeout: WaitPolicy) returns (r: Result<(), PineconeError>)
      modifies this
      ensures old(polls) <= polls
      ensures PollResult(r, now, polls) == WaitOutcome(answers, latency, name, timeout, old(now), old(polls))
      ensures log == old(log) + Describes(name, polls - old(polls))
    {
      match timeout {
        case NoWait =>
          r := Success(());
        case WaitFor(duration) =>
          var start := now;
          while true
            invariant start <= now <= start + duration
            invariant old(polls) <= polls
            invariant PollRun(answers, latency, name, duration, start, now, polls) ==
                      PollRun(answers, latency, name, duration, start, start, old(polls))
            invariant log == old(log) + Describes(name, polls - old(polls))
            decreases start + duration - now
          {
            var ready := IsReady(name);
            if ready {
              break;
            }
            var elapsed := now - start;
            if duration < elapsed {
              r := Failure(TimeoutError(NotReadyMessage(name)));
              return;
            }
            var remaining := duration - elapsed;
            now := now + Min(remaining, MaxSleep);
          }
          r := Success(());
      }
    }

    /** `create_serverless_index`: create, then poll; a failed creation returns before polling. */
    method CreateServerlessIndex(name: string, dimension: int, metric: Metric, cloud: Cloud, region: string,
                                 deletionProtection: DeletionProtection, timeout: WaitPolicy)
      returns (r: Result<IndexModel, PineconeError>)
      modifies this
      ensures old(polls) <= polls
      ensures var request := ServerlessIndexRequest(name, dimension, metric, cloud, region, deletionProtection);
        var created := createResponse(request);
        var waited := WaitOutcome(answers, latency, name, timeout, old(now), old(polls));
        if created.Failure? then
          && r == MapApiResponse(created)
          && now == old(now) && polls == old(polls) && log == old(log) + [Create(request)]
        else
          && r == (if waited.outcome.Success? then Success(created.value) else Failure(waited.outcome.error))
          && now == waited.now && polls == waited.polls
          && log == old(log) + [Create(request)] + Describes(name, polls - old(polls))
    {
      var request := ServerlessIndexRequest(name, dimension, metric, cloud, region, deletionProtection);
      r := CreateAndPoll(request, name, timeout);
    }

    /** `create_pod_index`: create, then poll; a failed creation returns before polling. */
    method CreatePodIndex(name: string, dimension: int, metric: Metric, environment: string, podType: string,
                          pods: int, replicas: int, shards: int, deletionProtection: DeletionProtection,
                          metadataIndexed: Option<seq<string>>, sourceCollection: Option<string>,
                          timeout: WaitPolicy)
      returns (r: Result<IndexModel, PineconeError>)
      modifies this
      ensures old(polls) <= polls
      ensures var request := PodIndexRequest(name, dimension, metric, environment, podType, pods, replicas, shards,
                                             deletionProtection, metadataIndexed, sourceCollection);
        var created := createResponse(request);
        var waited := WaitOutcome(answers, latency, name, timeout, old(now), old(polls));
        if created.Failure? then
          && r == MapApiResponse(created)
          && now == old(now) && polls == old(polls) && log == old(log) + [Create(request)]
        else
          && r == (if waited.outcome.Success? then Success(created.value) else Failure(waited.outcome.error))
          && now == waited.now && polls == waited.polls
          && log == old(log) + [Create(request)] + Describes(name, polls - old(polls))
    {
      var request := PodIndexRequest(name, dimension, metric, environment, podType, pods, replicas, shards,
                                     deletionProtection, metadataIndexed, sourceCollection);
      r := CreateAndPoll(request, name, timeout);
    }

    /** The part `create_serverless_index` and `create_pod_index` share once the request is built. */
    method CreateAndPoll(request: CreateIndexRequest, name: string, timeout: WaitPolicy)
      returns (r: Result<IndexModel, PineconeError>)
      modifies this
      ensures old(polls) <= polls
      ensures var created := createResponse(request);
        var waited := WaitOutcome(answers, latency, name, timeout, old(now), old(polls));
        if created.Failure? then
          && r == MapApiResponse(created)
          && now == old(now) && polls == old(polls) && log == old(log) + [Create(request)]
        else
          && r == (if waited.outcome.Success? then Success(created.value) else Failure(waited.outcome.error))
          && now == waited.now && polls == waited.polls
          && log == old(log) + [Create(request)] + Describes(name, polls - old(polls))
    {
      log := log + [Create(request)];
      var created := createResponse(request);
      if created.Failure? {
        r := MapApiResponse(created);
        return;
      }
      var polled := HandlePollIndex(name, timeout);
      if polled.Failure? {
        r := Failure(polled.error);
      } else {
        r := Success(created.value);
      }
    }

    /** `configure_index`: no option at all is refused before any call. */
    method ConfigureIndex(name: string, deletionProtection: Option<DeletionProtection>, replicas: Option<int>,
                          podType: Option<string>)
      returns (r: Result<IndexModel, PineconeError>)
      modifies this
      ensures now == old(now) && polls == old(polls)
      ensures match ConfigureRequestFor(deletionProtection, replicas, podType)
        case Failure(e) => r == Failure(e) && log == old(log)
        case Success(request) =>
          r == MapApiResponse(configureResponse(name, request)) && log == old(log) + [Configure(name, request)]
    {
      var request := ConfigureRequestFor(deletionProtection, replicas, podType);
      if request.Failure? {
        r := Failure(request.error);
        return;
      }
      log := log + [Configure(name, request.value)];
      r := MapApiResponse(configureResponse(name, request.value));
    }
  }
}
