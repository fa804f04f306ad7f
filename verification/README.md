# go-git-k8s pod handler, modelled in Dafny

This project models the pod handler in `pkg/handler/k8s/handler.go` of go-git-k8s. The
handler watches one Kubernetes namespace for the pod that stands for a Git repository.
It covers these steps:

- It builds a label selector from the configuration: one `key In {value}` requirement
  per configured label, then the marker `git_kubernetes_watch In {test}`, then
  `watch_repository In {<repository>}`.
- It lists the pods that match the selector.
- `CheckContainerExist` reports whether nothing matched.
- `Refresh` submits an update.
- `Create` submits a new pod descriptor.

`api.dfy` (module `Api`) holds the values the handler reads and writes: the
configuration, label requirements, pods, containers, ports and the requests sent to the
cluster. `handler.dfy` (module `K8s`) holds the handler.

The cluster is never called. Each operation takes the cluster's answer as a parameter:
`listed` for the list query, `updated` for the update and `created` for the create. Each
operation also returns the requests it actually sent, so contracts can say that no query
or no update was issued.

Three other things are modelled as inputs:

- Validation inside `labels.NewRequirement` is a parameter
  `validate: Requirement -> Option<Error>`.
- Go's unspecified map iteration order is a parameter `order`. It must list each label
  key exactly once (`IsIterationOrder`).
- Errors are opaque values that are passed back unchanged.

Some of the code's behaviour is surprising; the model keeps it as written:

- **Refresh with no matching pod.** The code indexes `pods[0]` without a check, and the
  Go runtime panics. Indexing `Spec.Containers[0]` of a pod with no containers panics the
  same way. The model returns `IndexOutOfRange(FirstPod)` or
  `IndexOutOfRange(FirstContainer)`.
- **Refresh's submitted pod.** Refresh clears the first container's image on a copy of
  the first pod. It then submits a freshly built empty pod, so the change is discarded.
- **Create's descriptor.** The pod has two zero-valued containers: `make(…, 1)` puts one
  there and the appended empty-image container is the second. The `ports` slice has
  `2·|expose|` entries and is never attached, so the submitted pod exposes no port.
- **CheckContainerExist's answer.** It returns Go's `(bool, error)` pair. The value is
  `true` exactly when nothing matched, and `false` together with the error on failure.

## Model

| member | source | states |
|---|---|---|
| `Api.Int32` | pkg/handler/k8s/handler.go:130-131 | `int32(expose)` gives a value in the int32 range that is congruent to the input modulo 2^32, and equal to the input when the input already fits |
| `K8s.NewRequirement` | pkg/handler/k8s/handler.go:42-45 | a requirement is returned, with the given key, operator and values, exactly when validation accepts it; otherwise validation's own error is returned |
| `K8s.FirstRejected` | pkg/handler/k8s/handler.go:39-60 | gives the position where construction stops: every earlier requirement was accepted, and the one at that position, if any, was rejected |
| `K8s.CreateSelector` | pkg/handler/k8s/handler.go:36-63 | the requirements handed to `Add` are a prefix of the planned list and all passed validation; on success they are the whole list; on failure the next planned requirement is the one rejected, with exactly the error returned, and nothing after it is built |
| `K8s.SelectorShape` | pkg/handler/k8s/handler.go:15-19 | on success there are \|labels\| + 2 requirements: exactly one `key In {labels[key]}` per label key, with no key twice and none missing, then `git_kubernetes_watch In {test}`, then `watch_repository In {repository}` |
| `K8s.SelectorOkIffAllValid` | pkg/handler/k8s/handler.go:39-62 | the selector is built if and only if validation accepts every label requirement and both marker requirements |
| `K8s.SelectorOrderIndependent` | pkg/handler/k8s/handler.go:39-47 | the map iteration order affects neither whether the selector is built nor, up to order, which requirements it holds (the multisets are equal) |
| `K8s.GetPodList` | pkg/handler/k8s/handler.go:78-88 | a list query is sent if and only if every requirement is valid, in the configured namespace, after all \|labels\| + 2 requirements were handed to `Add`; a selector error is returned with no query; the query's answer is returned unchanged, error or not |
| `K8s.CheckContainerExist` | pkg/handler/k8s/handler.go:90-102 | the result is `(true, nil)` if and only if the selector is valid and the list is empty, and `(false, nil)` if and only if it is valid and the list is non-empty, however many pods it holds; a selector or list error gives `(false, err)` with that same error |
| `K8s.Refresh` | pkg/handler/k8s/handler.go:104-115 | errors are returned with no update sent; an empty list or a first pod with no containers panics with no update sent; otherwise exactly one update is sent, it carries the empty pod whatever was listed, and the cluster's answer is returned |
| `K8s.BuildPorts` | pkg/handler/k8s/handler.go:127-133 | `ports` ends with 2·\|expose\| entries: the first \|expose\| are zero, and then, in order, one entry per exposed port with host port = container port = `int32(expose)` |
| `K8s.Create` | pkg/handler/k8s/handler.go:117-139 | exactly one create request is sent, in the configured namespace; the pod has kind `Pod`, API version `v1`, the configured namespace and labels, and the repository as its name; it has exactly 2 containers, each with an empty image and no ports, so it is never the corrected descriptor `K8s.IntendedPod`; the cluster's answer is returned |
| `K8s.IntendedPod` | pkg/handler/k8s/handler.go:117-139 | corrected descriptor: the same metadata, one container with an empty image, and one port per exposed port, in order, with host port = container port = `int32(expose)` |

## Findings

| source | as written | input that shows it | evidently intended | confidence | as-written member | corrected member |
|---|---|---|---|---|---|---|
| pkg/handler/k8s/handler.go:127-136 | `make(…, n)` followed by `append` doubles both slices. `ports` has 2·n entries, the first n of them zero, and it is never attached to a container. The pod gets two zero containers. | `expose = [8080]` gives a pod with 2 containers and no port mapping; `ports` is `[{0,0}, {8080,8080}]` | one container whose ports are `{8080, 8080}`, one per exposed port | high (not executed) | `K8s.Create`, `K8s.BuildPorts` | `K8s.IntendedPod` |

## Left out

- `NewKubernetesHandle`, `Load` and the `Handle` struct are not modelled. They load
  in-cluster credentials and build the client, which are I/O and calls into the client
  library. `lastUpdateTime` is set but never read.
- The `List`, `Update` and `Create` calls to the cluster are not modelled. Their answers
  are parameters, and the requests sent are returned as values.
- The validation rules of `labels.NewRequirement` are not modelled. They are the
  parameter `validate`.
- `selector.Add` is modelled only as the sequence of requirements handed to it. The code
  discards what `Add` returns, so whether the returned selector holds them depends on
  library code that is not part of this model. Label matching is not modelled either.
- Go's map iteration is modelled by the `order` parameter. A Go program does not choose
  this order. `K8s.SelectorOrderIndependent` proves that the order changes neither
  whether the selector is built nor, up to order, which requirements it holds. The order
  does decide which error is returned when two or more requirements are rejected (the
  first one visited), and the order of the requirements recorded in the list query.
- `K8s.GetPodList`: the list query records the requirements handed to `selector.Add`,
  not the selector value actually sent. The code discards what `Add` returns, so that
  value depends on the client library and is not modelled.
- `K8s.Refresh`: the cleared image on the copied pod is computed and then dropped. Go's
  slice aliasing, through which the change also reaches the listed pod's container, is
  not modelled, because the list is discarded afterwards.
- The element type of `Expose` is defined outside this file. `int32(expose)` is modelled
  as two's-complement truncation of an unbounded integer.
- Go's nil map and nil slice are not distinguished from empty ones.
