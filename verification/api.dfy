/** The values the pod handler reads and produces: the configuration it is given,
    the label requirements it builds, the pod descriptors it submits and the requests
    it sends to the cluster. These mirror the Go types of the configuration package and
    of the Kubernetes client library (api_v1.Pod, api_v1.Container, api_v1.ContainerPort,
    labels.Requirement), reduced to the fields the handler touches. */
module Api {

  datatype Option<T> = None | Some(value: T)

  /** An error produced by a collaborator (requirement validation or the cluster).
      The handler never inspects one; it only hands it back to its caller. */
  datatype Error = Error(message: string)

  datatype Result<T> = Ok(value: T) | Err(error: Error)

  /** Go's conversion `int32(x)` from a wider integer: two's-complement truncation
      to 32 bits. */
  function Int32(x: int): (r: int)
    ensures -0x8000_0000 <= r < 0x8000_0000
    ensures (x - r) % 0x1_0000_0000 == 0
    ensures -0x8000_0000 <= x < 0x8000_0000 ==> r == x
  {
    (x + 0x8000_0000) % 0x1_0000_0000 - 0x8000_0000
  }

  // ----- configuration (read only) -----

  datatype K8sConfig = K8sConfig(namespace: string, labels: map<string, string>)
  datatype GitConfig = GitConfig(repository: string)
  datatype BuildConfig = BuildConfig(expose: seq<int>)
  datatype Config = Config(k8s: K8sConfig, git: GitConfig, build: BuildConfig)

  // ----- label selectors -----

  /** The only selection operator the handler uses. */
  datatype Operator = In

  datatype Requirement = Requirement(key: string, operator: Operator, values: set<string>)

  /** Stands in for the validation inside labels.NewRequirement, whose rules are not
      part of this model: None accepts the requirement, Some(e) rejects it with e. */
  type Validator = Requirement -> Option<Error>

  // ----- pod descriptors -----

  /** Both ports are int32 values in the Kubernetes API. */
  datatype ContainerPort = ContainerPort(hostPort: int, containerPort: int)

  datatype Container = Container(image: string, ports: seq<ContainerPort>)

  datatype Pod = Pod(
    kind: string,
    apiVersion: string,
    name: string,
    namespace: string,
    labels: map<string, string>,
    containers: seq<Container>)

  /** Go zero values: what `&api_v1.ContainerPort{}`, `&api_v1.Container{}` and
      `&api_v1.Pod{}` hold before any field is set. */
  const ZeroPort := ContainerPort(0, 0)
  const ZeroContainer := Container("", [])
  const EmptyPod := Pod("", "", "", "", map[], [])

  // ----- requests sent to the cluster -----

  /** A list query records the requirements the handler handed to `selector.Add`
      before sending it; what the selector value sent actually holds is decided by
      the client library and is not part of this model. */
  datatype Request =
    | ListPods(namespace: string, handedToAdd: seq<Requirement>)
    | UpdatePod(namespace: string, pod: Pod)
    | CreatePod(namespace: string, pod: Pod)
}
