/**
 * The k8s_get_resources tool: lists pods, deployments, services or replica
 * sets of one namespace, at most `limit` of them, as one summary row each.
 *
 * The API server's list calls are parameters (`Lister`). The rows are the
 * model's output; their JSON rendering is not modelled.
 */
module GetResourcesTool {
  import opened Wrappers
  import opened Values
  import opened Fmt
  import AgentLoop

  const ToolName := "k8s_get_resources"

  /** The default number of items, and the most ever returned. */
  const MaxLimit := 100

  const TypePods := "pods"
  const TypeDeployments := "deployments"
  const TypeServices := "services"
  const TypeReplicaSets := "replicasets"

  const TwoTo31 := 0x8000_0000
  const TwoTo32 := 0x1_0000_0000

  /** Go's `int32` arithmetic: the two's-complement value congruent to `x`. */
  function Wrap32(x: int): (r: int)
    ensures -TwoTo31 <= r < TwoTo31
    ensures -TwoTo31 <= x < TwoTo31 ==> r == x
    ensures (x - r) % TwoTo32 == 0
  {
    var m := x % TwoTo32;
    if m >= TwoTo31 then m - TwoTo32 else m
  }

  datatype ContainerStatus = ContainerStatus(ready: bool, restartCount: int)

  /** A listed pod; `created` is the rendered creation time, or None when it is the zero time. */
  datatype PodItem = PodItem(
    name: string,
    namespace: string,
    phase: string,
    labels: map<string, string>,
    statuses: seq<ContainerStatus>,
    created: Option<string>)

  /** A listed deployment or replica set: both are summarised the same way. */
  datatype WorkloadItem = WorkloadItem(
    name: string,
    namespace: string,
    labels: map<string, string>,
    specReplicas: Option<int>,
    readyReplicas: int,
    created: Option<string>)

  datatype ServicePort = ServicePort(port: int, protocol: string)

  datatype ServiceItem = ServiceItem(
    name: string,
    namespace: string,
    serviceType: string,
    clusterIP: string,
    ports: seq<ServicePort>,
    labels: map<string, string>,
    created: Option<string>)

  datatype PodInfo = PodInfo(
    name: string,
    namespace: string,
    phase: string,
    labels: map<string, string>,
    ready: string,
    restarts: int,
    age: string)

  datatype WorkloadInfo = WorkloadInfo(
    name: string,
    namespace: string,
    replicas: string,
    labels: map<string, string>,
    age: string)

  datatype ServiceInfo = ServiceInfo(
    name: string,
    namespace: string,
    serviceType: string,
    clusterIP: string,
    ports: seq<string>,
    labels: map<string, string>,
    age: string)

  /** The tool's output: the rows of one resource type. */
  datatype Listing =
    | PodList(pods: seq<PodInfo>)
    | DeploymentList(deployments: seq<WorkloadInfo>)
    | ServiceList(services: seq<ServiceInfo>)
    | ReplicaSetList(replicaSets: seq<WorkloadInfo>)

  function Count(l: Listing): nat
  {
    match l
    case PodList(rows) => |rows|
    case DeploymentList(rows) => |rows|
    case ServiceList(rows) => |rows|
    case ReplicaSetList(rows) => |rows|
  }

  /** The list options sent with every list call. */
  datatype ListQuery = ListQuery(namespace: string, labelSelector: string, limit: int)

  /** The API server's list calls, as what they give for each query. */
  datatype Lister = Lister(
    pods: ListQuery -> Result<seq<PodItem>>,
    deployments: ListQuery -> Result<seq<WorkloadItem>>,
    services: ListQuery -> Result<seq<ServiceItem>>,
    replicaSets: ListQuery -> Result<seq<WorkloadItem>>)

  function Age(created: Option<string>): string
  {
    match created
    case None => "unknown"
    case Some(t) => t
  }

  /** How many containers report ready. */
  function ReadyCount(statuses: seq<ContainerStatus>): (n: nat)
    ensures n <= |statuses|
  {
    if statuses == [] then 0
    else ReadyCount(statuses[..|statuses| - 1]) + (if statuses[|statuses| - 1].ready then 1 else 0)
  }

  /** The exact total of the containers' restart counts. */
  function RestartTotal(statuses: seq<ContainerStatus>): int
  {
    if statuses == [] then 0 else RestartTotal(statuses[..|statuses| - 1]) + statuses[|statuses| - 1].restartCount
  }

  /** The restart counts summed as the code sums them: in `int32`, one container at a time. */
  function RestartSum32(statuses: seq<ContainerStatus>): int
  {
    if statuses == [] then 0 else Wrap32(RestartSum32(statuses[..|statuses| - 1]) + statuses[|statuses| - 1].restartCount)
  }

  /** Counts ready containers and sums restarts over a pod's container statuses. */
  method Summarize(statuses: seq<ContainerStatus>) returns (ready: nat, restarts: int)
    ensures ready == ReadyCount(statuses) && restarts == RestartSum32(statuses)
  {
    ready, restarts := 0, 0;
    var i := 0;
    while i < |statuses|
      invariant 0 <= i <= |statuses|
      invariant ready == ReadyCount(statuses[..i]) && restarts == RestartSum32(statuses[..i])
    {
      assert statuses[..i + 1][..i] == statuses[..i];
      if statuses[i].ready {
        ready := ready + 1;
      }
      restarts := Wrap32(restarts + statuses[i].restartCount);
      i := i + 1;
    }
    assert statuses[..i] == statuses;
  }

  function PodInfoOf(p: PodItem): PodInfo
  {
    PodInfo(p.name, p.namespace, p.phase, p.labels, Ratio(ReadyCount(p.statuses), |p.statuses|),
            RestartSum32(p.statuses), Age(p.created))
  }

  /** "ready/desired", or "0/0" when the desired count is unset. */
  function Replicas(w: WorkloadItem): string
  {
    match w.specReplicas
    case None => "0/0"
    case Some(n) => Ratio(w.readyReplicas, n)
  }

  function WorkloadInfoOf(w: WorkloadItem): WorkloadInfo
  {
    WorkloadInfo(w.name, w.namespace, Replicas(w), w.labels, Age(w.created))
  }

  function PortText(p: ServicePort): string
  {
    Itoa(p.port) + "/" + p.protocol
  }

  function ServiceInfoOf(s: ServiceItem, ports: seq<string>): ServiceInfo
  {
    ServiceInfo(s.name, s.namespace, s.serviceType, s.clusterIP, ports, s.labels, Age(s.created))
  }

  /** The "port/protocol" texts of a service, in order. */
  method PortTexts(ports: seq<ServicePort>) returns (texts: seq<string>)
    ensures texts == PortList(ports)
  {
    texts := [];
    for i := 0 to |ports|
      invariant |texts| == i
      invariant forall j :: 0 <= j < i ==> texts[j] == PortText(ports[j])
    {
      texts := texts + [PortText(ports[i])];
    }
  }

  /** The "port/protocol" texts of a service's ports, in order. */
  function PortList(ports: seq<ServicePort>): (texts: seq<string>)
    ensures |texts| == |ports|
    ensures forall i :: 0 <= i < |ports| ==> texts[i] == PortText(ports[i])
  {
    seq(|ports|, i requires 0 <= i < |ports| => PortText(ports[i]))
  }

  /** The rows of a pod listing: one per pod, in order. */
  function PodTable(items: seq<PodItem>): (rows: seq<PodInfo>)
    ensures |rows| == |items|
  {
    seq(|items|, i requires 0 <= i < |items| => PodInfoOf(items[i]))
  }

  /** The rows of a deployment or replica set listing: one per object, in order. */
  function WorkloadTable(items: seq<WorkloadItem>): (rows: seq<WorkloadInfo>)
    ensures |rows| == |items|
  {
    seq(|items|, i requires 0 <= i < |items| => WorkloadInfoOf(items[i]))
  }

  /** The rows of a service listing: one per service, in order. */
  function ServiceTable(items: seq<ServiceItem>): (rows: seq<ServiceInfo>)
    ensures |rows| == |items|
  {
    seq(|items|, i requires 0 <= i < |items| => ServiceInfoOf(items[i], PortList(items[i].ports)))
  }

  /**
   * The first `limit` items, as the code truncates them: a `limit` below
   * zero makes the slice expression fail (None), which in Go is a panic.
   */
  function TruncateAsWritten<T>(items: seq<T>, limit: int): (r: Option<seq<T>>)
    ensures r.None? <==> limit < 0
    ensures r.Some? ==> r.value <= items && |r.value| == if limit < |items| then limit else |items|
  {
    if |items| > limit then (if limit < 0 then None else Some(items[..limit])) else Some(items)
  }

  /** The first `limit` items, with a negative limit taken as zero. */
  function Truncate<T>(items: seq<T>, limit: int): (r: seq<T>)
    ensures r <= items
    ensures |r| == if limit < 0 then 0 else if limit < |items| then limit else |items|
  {
    if limit < 0 then [] else if |items| > limit then items[..limit] else items
  }

  /**
   * The resource type and list options of an input: namespace first, then
   * resource type, must be non-empty strings; the label selector defaults to
   * empty; the limit defaults to 100 and is capped at 100, but not bounded
   * below.
   */
  function Query(input: Input): (r: Result<(string, ListQuery)>)
    ensures RequiredString(input, "namespace").None? ==> r == Err("namespace is required")
    ensures RequiredString(input, "namespace").Some? && RequiredString(input, "resourceType").None? ==>
      r == Err("resourceType is required")
    ensures r.Ok? <==> RequiredString(input, "namespace").Some? && RequiredString(input, "resourceType").Some?
    ensures r.Ok? ==>
      && r.value.0 == input["resourceType"].s
      && r.value.1.namespace == input["namespace"].s
      && r.value.1.labelSelector == (if GetString(input, "labelSelector").Some? then input["labelSelector"].s else "")
      && r.value.1.limit == Capped(input, "limit", MaxLimit, MaxLimit)
  {
    match RequiredString(input, "namespace")
    case None => Err("namespace is required")
    case Some(namespace) =>
      match RequiredString(input, "resourceType")
      case None => Err("resourceType is required")
      case Some(resourceType) =>
        var selector := match GetString(input, "labelSelector") case Some(s) => s case None => "";
        Ok((resourceType, ListQuery(namespace, selector, Capped(input, "limit", MaxLimit, MaxLimit))))
  }

  function InvalidType(resourceType: string): string
  {
    "invalid resourceType: " + resourceType + " (must be one of: pods, deployments, services, replicasets)"
  }

  /** The tool, over the cluster's list calls. */
  datatype GetResources = GetResources(lister: Lister)
  {
    /** What one call gives, as a function of the input. */
    function ExecuteSpec(input: Input): Result<Listing>
    {
      match Query(input)
      case Err(e) => Err(e)
      case Ok((resourceType, q)) =>
        if resourceType == TypePods then
          match lister.pods(q)
          case Err(e) => Err("failed to list pods: " + e)
          case Ok(items) => Ok(PodList(PodTable(Truncate(items, q.limit))))
        else if resourceType == TypeDeployments then
          match lister.deployments(q)
          case Err(e) => Err("failed to list deployments: " + e)
          case Ok(items) => Ok(DeploymentList(WorkloadTable(Truncate(items, q.limit))))
        else if resourceType == TypeServices then
          match lister.services(q)
          case Err(e) => Err("failed to list services: " + e)
          case Ok(items) => Ok(ServiceList(ServiceTable(Truncate(items, q.limit))))
        else if resourceType == TypeReplicaSets then
          match lister.replicaSets(q)
          case Err(e) => Err("failed to list replicasets: " + e)
          case Ok(items) => Ok(ReplicaSetList(WorkloadTable(Truncate(items, q.limit))))
        else Err(InvalidType(resourceType))
    }

    /** Checks the input, lists the resources and summarises at most `limit` of them. */
    method Execute(input: Input) returns (r: Result<Listing>)
      ensures r == ExecuteSpec(input)
    {
      var query := Query(input);
      if query.Err? {
        return Err(query.error);
      }
      var (resourceType, q) := query.value;
      if resourceType == TypePods {
        var listed := lister.pods(q);
        if listed.Err? {
          return Err("failed to list pods: " + listed.error);
        }
        var rows := PodRows(Truncate(listed.value, q.limit));
        return Ok(PodList(rows));
      } else if resourceType == TypeDeployments {
        var listed := lister.deployments(q);
        if listed.Err? {
          return Err("failed to list deployments: " + listed.error);
        }
        var rows := WorkloadRows(Truncate(listed.value, q.limit));
        return Ok(DeploymentList(rows));
      } else if resourceType == TypeServices {
        var listed := lister.services(q);
        if listed.Err? {
          return Err("failed to list services: " + listed.error);
        }
        var rows := ServiceRows(Truncate(listed.value, q.limit));
        return Ok(ServiceList(rows));
      } else if resourceType == TypeReplicaSets {
        var listed := lister.replicaSets(q);
        if listed.Err? {
          return Err("failed to list replicasets: " + listed.error);
        }
        var rows := WorkloadRows(Truncate(listed.value, q.limit));
        return Ok(ReplicaSetList(rows));
      }
      return Err(InvalidType(resourceType));
    }

    /** One row per pod, in order. */
    static method PodRows(items: seq<PodItem>) returns (rows: seq<PodInfo>)
      ensures rows == PodTable(items)
    {
      rows := [];
      for i := 0 to |items|
        invariant |rows| == i
        invariant forall j :: 0 <= j < i ==> rows[j] == PodInfoOf(items[j])
      {
        var pod := items[i];
        var ready, restarts := Summarize(pod.statuses);
        var age := "unknown";
        if pod.created.Some? {
          age := pod.created.value;
        }
        rows := rows + [PodInfo(pod.name, pod.namespace, pod.phase, pod.labels,
                                Ratio(ready, |pod.statuses|), restarts, age)];
      }
    }

    /** One row per deployment or replica set, in order. */
    static method WorkloadRows(items: seq<WorkloadItem>) returns (rows: seq<WorkloadInfo>)
      ensures rows == WorkloadTable(items)
    {
      rows := [];
      for i := 0 to |items|
        invariant |rows| == i
        invariant forall j :: 0 <= j < i ==> rows[j] == WorkloadInfoOf(items[j])
      {
        var w := items[i];
        var replicas := "0/0";
        if w.specReplicas.Some? {
          replicas := Ratio(w.readyReplicas, w.specReplicas.value);
        }
        var age := "unknown";
        if w.created.Some? {
          age := w.created.value;
        }
        rows := rows + [WorkloadInfo(w.name, w.namespace, replicas, w.labels, age)];
      }
    }

    /** One row per service, in order. */
    static method ServiceRows(items: seq<ServiceItem>) returns (rows: seq<ServiceInfo>)
      ensures rows == ServiceTable(items)
    {
      rows := [];
      for i := 0 to |items|
        invariant |rows| == i
        invariant forall j :: 0 <= j < i ==> rows[j] == ServiceTable(items)[j]
      {
        var s := items[i];
        var ports := PortTexts(s.ports);
        var age := "unknown";
        if s.created.Some? {
          age := s.created.value;
        }
        rows := rows + [ServiceInfo(s.name, s.namespace, s.serviceType, s.clusterIP, ports, s.labels, age)];
      }
    }

    /** The tool as the agent loop runs it; the rows' JSON text stands outside the model. */
    function AsTool(render: Listing -> string): AgentLoop.Tool
    {
      (input: Input) =>
        match ExecuteSpec(input)
        case Ok(l) => AgentLoop.Output(render(l))
        case Err(e) => AgentLoop.ExecError(e)
    }
  }

  /** `int32` addition depends only on the wrapped value of its left operand. */
  lemma WrapAdd(a: int, b: int)
    ensures Wrap32(Wrap32(a) + b) == Wrap32(a + b)
  {
    var w := Wrap32(a);
    var k := (a - w) / TwoTo32;
    assert a - w == k * TwoTo32;
    assert (w + b) % TwoTo32 == (a + b) % TwoTo32 by {
      assert w + b == (a + b) - k * TwoTo32;
    }
  }

  /**
   * The restart column is the exact total of the restart counts whenever
   * that total fits in an `int32`, and otherwise the total wrapped around.
   */
  lemma {:induction false} RestartsWrapAround(statuses: seq<ContainerStatus>)
    ensures RestartSum32(statuses) == Wrap32(RestartTotal(statuses))
    ensures -TwoTo31 <= RestartTotal(statuses) < TwoTo31 ==> RestartSum32(statuses) == RestartTotal(statuses)
  {
    if statuses != [] {
      var init := statuses[..|statuses| - 1];
      var c := statuses[|statuses| - 1].restartCount;
      RestartsWrapAround(init);
      WrapAdd(RestartTotal(init), c);
    }
  }

  /** The ready column gives back both the ready count and the number of containers. */
  lemma ReadyReadsBack(a: PodItem, b: PodItem)
    requires PodInfoOf(a).ready == PodInfoOf(b).ready
    ensures ReadyCount(a.statuses) == ReadyCount(b.statuses) && |a.statuses| == |b.statuses|
  {
    RatioInjective(ReadyCount(a.statuses), |a.statuses|, ReadyCount(b.statuses), |b.statuses|);
  }

  /**
   * The replicas column gives back the ready and desired counts when the
   * desired count is set; an unset desired count reads like zero of zero.
   */
  lemma ReplicasReadBack(a: WorkloadItem, b: WorkloadItem)
    ensures a.specReplicas.Some? && b.specReplicas.Some? && Replicas(a) == Replicas(b) ==>
      a.readyReplicas == b.readyReplicas && a.specReplicas == b.specReplicas
    ensures a.specReplicas.None? && b.specReplicas == Some(0) && b.readyReplicas == 0 ==> Replicas(a) == Replicas(b)
  {
    if a.specReplicas.Some? && b.specReplicas.Some? && Replicas(a) == Replicas(b) {
      RatioInjective(a.readyReplicas, a.specReplicas.value, b.readyReplicas, b.specReplicas.value);
    }
    if b.specReplicas == Some(0) && b.readyReplicas == 0 {
      assert Itoa(0) == "0";
    }
  }

  /** Two ports render alike only when they are the same port and protocol. */
  lemma PortTextReadsBack(p: ServicePort, q: ServicePort)
    requires PortText(p) == PortText(q)
    ensures p == q
  {
    SlashSplit(p.port, p.protocol, q.port, q.protocol);
  }

  /** The number of rows a listing of `n` objects keeps under `limit`. */
  function Kept(n: nat, limit: int): nat
  {
    if limit < 0 then 0 else if limit < n then limit else n
  }

  /**
   * Never more than 100 rows, never more than the limit asked for (none
   * for a negative limit, under the corrected truncation), and otherwise
   * exactly min(limit, listed) rows, each summarising the object listed
   * at the same position.
   */
  lemma ListingIsBoundedPrefix(g: GetResources, input: Input)
    requires Query(input).Ok?
    ensures var q := Query(input).value.1;
      g.ExecuteSpec(input).Ok? ==>
        && Count(g.ExecuteSpec(input).value) <= MaxLimit
        && Count(g.ExecuteSpec(input).value) <= (if q.limit < 0 then 0 else q.limit)
    ensures var (t, q) := Query(input).value;
      t == TypePods && g.lister.pods(q).Ok? ==>
        var listed := g.lister.pods(q).value;
        var rows := g.ExecuteSpec(input).value.pods;
        && |rows| == Kept(|listed|, q.limit)
        && forall i :: 0 <= i < |rows| ==> rows[i] == PodInfoOf(listed[i])
    ensures var (t, q) := Query(input).value;
      t == TypeDeployments && g.lister.deployments(q).Ok? ==>
        var listed := g.lister.deployments(q).value;
        var rows := g.ExecuteSpec(input).value.deployments;
        && |rows| == Kept(|listed|, q.limit)
        && forall i :: 0 <= i < |rows| ==> rows[i] == WorkloadInfoOf(listed[i])
    ensures var (t, q) := Query(input).value;
      t == TypeServices && g.lister.services(q).Ok? ==>
        var listed := g.lister.services(q).value;
        var rows := g.ExecuteSpec(input).value.services;
        && |rows| == Kept(|listed|, q.limit)
        && forall i :: 0 <= i < |rows| ==> rows[i] == ServiceInfoOf(listed[i], PortList(listed[i].ports))
    ensures var (t, q) := Query(input).value;
      t == TypeReplicaSets && g.lister.replicaSets(q).Ok? ==>
        var listed := g.lister.replicaSets(q).value;
        var rows := g.ExecuteSpec(input).value.replicaSets;
        && |rows| == Kept(|listed|, q.limit)
        && forall i :: 0 <= i < |rows| ==> rows[i] == WorkloadInfoOf(listed[i])
  {
  }

  /** Any other resource type is rejected, naming the four accepted ones, before the cluster is asked. */
  lemma UnknownTypeRejected(l1: Lister, l2: Lister, input: Input)
    requires Query(input).Ok?
    requires var t := Query(input).value.0;
      t != TypePods && t != TypeDeployments && t != TypeServices && t != TypeReplicaSets
    ensures GetResources(l1).ExecuteSpec(input) == GetResources(l2).ExecuteSpec(input)
    ensures GetResources(l1).ExecuteSpec(input) == Err(InvalidType(input["resourceType"].s))
  {
  }

  /** A deployment with 2 of 3 replicas ready reads "2/3". */
  lemma DeploymentReplicasExample(w: WorkloadItem)
    requires w.specReplicas == Some(3) && w.readyReplicas == 2
    ensures WorkloadInfoOf(w).replicas == "2/3"
  {
    assert Itoa(2) == "2" && Itoa(3) == "3";
  }

  /**
   * A negative limit reaches the truncation as it is: the input below asks
   * for limit -1, and with limit -1 the truncation as written fails for
   * every listing, even an empty one, because its length exceeds the limit
   * and a slice cannot end before zero.
   */
  lemma NegativeLimitPanics<T>(items: seq<T>)
    ensures var input := map["namespace" := Str("default"), "resourceType" := Str(TypePods), "limit" := Int(-1)];
      Query(input) == Ok((TypePods, ListQuery("default", "", -1)))
    ensures TruncateAsWritten(items, -1) == None
  {
    var input := map["namespace" := Str("default"), "resourceType" := Str(TypePods), "limit" := Int(-1)];
    assert GetInt(input, "limit") == Some(-1);
    assert "labelSelector" !in input;
  }

  /** For every limit that is not negative the correction changes nothing. */
  lemma TruncateAgreesOtherwise<T>(items: seq<T>, limit: int)
    requires limit >= 0
    ensures TruncateAsWritten(items, limit) == Some(Truncate(items, limit))
  {
  }
}
