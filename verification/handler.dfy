/** The pod handler of pkg/handler/k8s: selector construction, the existence check,
    refresh and create. The cluster is not called: every operation takes the cluster's
    answer as a parameter and returns, beside its result, the requests it sent, so
    that "no query was issued" and "this pod was submitted" are visible in contracts. */
module K8s {
  import opened Api

  /** The marker labels the handler adds to every selector. */
  const LabelKey := "git_kubernetes_watch"
  const LabelValue := "test"
  const LabelWatch := "watch_repository"

  /** A result together with the requests that produced it, oldest first. */
  datatype Traced<T> = Traced(result: T, sent: seq<Request>)

  /** Where Refresh indexes an empty slice and the Go runtime panics. */
  datatype Site = FirstPod | FirstContainer

  /** A Go call that either returns or panics on an index out of range. */
  datatype Outcome<T> = Returned(value: T) | IndexOutOfRange(site: Site)

  predicate Distinct<T(==)>(s: seq<T>)
  {
    forall i, j :: 0 <= i < j < |s| ==> s[i] != s[j]
  }

  /** The orders in which `range` may visit a Go map: each key exactly once. */
  predicate IsIterationOrder(order: seq<string>, labels: map<string, string>)
  {
    && Distinct(order)
    && (forall k :: k in order ==> k in labels)
    && (forall k :: k in labels ==> k in order)
  }

  // ===== selector construction =====

  function LabelRequirement(key: string, value: string): Requirement
  {
    Requirement(key, In, {value})
  }

  const MarkerRequirement := Requirement(LabelKey, In, {LabelValue})

  function WatchRequirement(repository: string): Requirement
  {
    Requirement(LabelWatch, In, {repository})
  }

  /** labels.NewRequirement: the requirement, unless validation rejects it. */
  function NewRequirement(key: string, op: Operator, values: set<string>, validate: Validator): (r: Result<Requirement>)
    ensures r.Ok? <==> validate(Requirement(key, op, values)).None?
    ensures r.Ok? ==> r.value.key == key && r.value.operator == op && r.value.values == values
    ensures r.Err? ==> validate(Requirement(key, op, values)) == Some(r.error)
  {
    var req := Requirement(key, op, values);
    match validate(req)
    case None => Ok(req)
    case Some(e) => Err(e)
  }

  /** The requirements createSelector builds when none is rejected, in the order it
      builds them: one per label, visited in `order`, then the two markers. */
  function Planned(c: Config, order: seq<string>): seq<Requirement>
    requires IsIterationOrder(order, c.k8s.labels)
  {
    seq(|order|, i requires 0 <= i < |order| => LabelRequirement(order[i], c.k8s.labels[order[i]]))
      + [MarkerRequirement, WatchRequirement(c.git.repository)]
  }

  /** The position of the first requirement validation rejects, or |reqs|. */
  function FirstRejected(reqs: seq<Requirement>, validate: Validator): (i: nat)
    ensures i <= |reqs|
    ensures forall j :: 0 <= j < i ==> validate(reqs[j]).None?
    ensures i < |reqs| ==> validate(reqs[i]).Some?
    decreases |reqs|
  {
    if reqs == [] || validate(reqs[0]).Some? then 0 else 1 + FirstRejected(reqs[1..], validate)
  }

  /** What createSelector returns: the first rejection's error, or all requirements. */
  function SelectorOf(c: Config, order: seq<string>, validate: Validator): Result<seq<Requirement>>
    requires IsIterationOrder(order, c.k8s.labels)
  {
    var planned := Planned(c, order);
    var i := FirstRejected(planned, validate);
    if i < |planned| then Err(validate(planned[i]).value) else Ok(planned)
  }

  /** Every requirement the configuration calls for passes validation. */
  predicate AllValid(c: Config, validate: Validator)
  {
    && (forall k :: k in c.k8s.labels ==> validate(LabelRequirement(k, c.k8s.labels[k])).None?)
    && validate(MarkerRequirement).None?
    && validate(WatchRequirement(c.git.repository)).None?
  }

  /** createSelector. `order` is the order in which the loop visits the label map;
      `added` lists the requirements handed to selector.Add, in order. */
  method CreateSelector(c: Config, order: seq<string>, validate: Validator)
    returns (res: Result<seq<Requirement>>, added: seq<Requirement>)
    requires IsIterationOrder(order, c.k8s.labels)
    ensures res == SelectorOf(c, order, validate)
    ensures added <= Planned(c, order)
    ensures forall r :: r in added ==> validate(r).None?
    ensures res.Ok? ==> added == Planned(c, order) == res.value
    ensures res.Err? ==>
      |added| < |Planned(c, order)| && validate(Planned(c, order)[|added|]) == Some(res.error)
  {
    ghost var planned := Planned(c, order);
    added := [];
    var i := 0;
    while i < |order|
      invariant 0 <= i <= |order|
      invariant added == planned[..i]
      invariant forall j :: 0 <= j < i ==> validate(planned[j]).None?
    {
      var key := order[i];
      var value := c.k8s.labels[key];
      var req := NewRequirement(key, In, {value}, validate);
      if req.Err? {
        res := Err(req.error);
        FirstRejectedAt(planned, validate, i);
        return;
      }
      added := added + [req.value];
      i := i + 1;
    }
    var marker := NewRequirement(LabelKey, In, {LabelValue}, validate);
    if marker.Err? {
      res := Err(marker.error);
      FirstRejectedAt(planned, validate, i);
      return;
    }
    added := added + [marker.value];
    var watch := NewRequirement(LabelWatch, In, {c.git.repository}, validate);
    if watch.Err? {
      res := Err(watch.error);
      FirstRejectedAt(planned, validate, i + 1);
      return;
    }
    added := added + [watch.value];
    assert added == planned;
    FirstRejectedNone(planned, validate);
    res := Ok(added);
  }

  /** A rejection preceded only by accepted requirements is the first one. */
  lemma FirstRejectedAt(reqs: seq<Requirement>, validate: Validator, i: nat)
    requires i < |reqs|
    requires forall j :: 0 <= j < i ==> validate(reqs[j]).None?
    requires validate(reqs[i]).Some?
    ensures FirstRejected(reqs, validate) == i
  {
  }

  lemma FirstRejectedNone(reqs: seq<Requirement>, validate: Validator)
    requires forall j :: 0 <= j < |reqs| ==> validate(reqs[j]).None?
    ensures FirstRejected(reqs, validate) == |reqs|
  {
  }

  // ----- properties of the selector -----

  lemma {:induction false} DistinctSetSize<T>(s: seq<T>)
    requires Distinct(s)
    ensures |set x | x in s| == |s|
  {
    if s != [] {
      DistinctSetSize(s[1..]);
      assert (set x | x in s) == {s[0]} + (set x | x in s[1..]);
    }
  }

  lemma IterationOrderLength(order: seq<string>, labels: map<string, string>)
    requires IsIterationOrder(order, labels)
    ensures |order| == |labels|
  {
    DistinctSetSize(order);
    assert (set x | x in order) == labels.Keys;
  }

  /** On success the selector holds exactly one `key In {value}` requirement per
      configured label (label keys are distinct and each appears), then the managed-by
      marker, then the repository marker: |labels| + 2 requirements. */
  lemma SelectorShape(c: Config, order: seq<string>, validate: Validator)
    requires IsIterationOrder(order, c.k8s.labels)
    requires SelectorOf(c, order, validate).Ok?
    ensures var sel, labels := SelectorOf(c, order, validate).value, c.k8s.labels;
      && |sel| == |labels| + 2
      && (forall i :: 0 <= i < |labels| ==>
            sel[i].key in labels && sel[i] == Requirement(sel[i].key, In, {labels[sel[i].key]}))
      && (forall i, j :: 0 <= i < j < |labels| ==> sel[i].key != sel[j].key)
      && (forall k :: k in labels ==> exists i :: 0 <= i < |labels| && sel[i].key == k)
      && sel[|labels|] == Requirement("git_kubernetes_watch", In, {"test"})
      && sel[|labels| + 1] == Requirement("watch_repository", In, {c.git.repository})
  {
    IterationOrderLength(order, c.k8s.labels);
    var sel := SelectorOf(c, order, validate).value;
    forall k | k in c.k8s.labels
      ensures exists i :: 0 <= i < |c.k8s.labels| && sel[i].key == k
    {
      var i :| 0 <= i < |order| && order[i] == k;
      assert sel[i].key == k;
    }
  }

  /** The selector is built exactly when validation accepts every requirement the
      configuration calls for, whatever order the label map is visited in. */
  lemma SelectorOkIffAllValid(c: Config, order: seq<string>, validate: Validator)
    requires IsIterationOrder(order, c.k8s.labels)
    ensures SelectorOf(c, order, validate).Ok? <==> AllValid(c, validate)
  {
    var planned := Planned(c, order);
    var n := |order|;
    if SelectorOf(c, order, validate).Ok? {
      forall k | k in c.k8s.labels
        ensures validate(LabelRequirement(k, c.k8s.labels[k])).None?
      {
        var i :| 0 <= i < n && order[i] == k;
        assert planned[i] == LabelRequirement(k, c.k8s.labels[k]);
      }
      assert planned[n] == MarkerRequirement;
      assert planned[n + 1] == WatchRequirement(c.git.repository);
    } else {
      var i := FirstRejected(planned, validate);
      if i < n {
        assert planned[i] == LabelRequirement(order[i], c.k8s.labels[order[i]]);
      } else {
        assert planned[i] == MarkerRequirement || planned[i] == WatchRequirement(c.git.repository);
      }
    }
  }

  lemma {:induction false} DistinctCount<T>(s: seq<T>, x: T)
    requires Distinct(s)
    ensures multiset(s)[x] == if x in s then 1 else 0
  {
    if s != [] {
      assert s == [s[0]] + s[1..];
      DistinctCount(s[1..], x);
    }
  }

  lemma DistinctSameElements<T>(s: seq<T>, t: seq<T>)
    requires Distinct(s) && Distinct(t)
    requires forall x :: x in s <==> x in t
    ensures multiset(s) == multiset(t)
  {
    forall x
      ensures multiset(s)[x] == multiset(t)[x]
    {
      DistinctCount(s, x);
      DistinctCount(t, x);
    }
  }

  /** Go leaves map iteration order unspecified; it decides neither whether the
      selector is built nor, up to order, which requirements it holds. (When several
      requirements are rejected it does decide which error is returned: the first
      rejected in visiting order.) */
  lemma SelectorOrderIndependent(c: Config, o1: seq<string>, o2: seq<string>, validate: Validator)
    requires IsIterationOrder(o1, c.k8s.labels) && IsIterationOrder(o2, c.k8s.labels)
    ensures SelectorOf(c, o1, validate).Ok? <==> SelectorOf(c, o2, validate).Ok?
    ensures SelectorOf(c, o1, validate).Ok? ==>
      multiset(SelectorOf(c, o1, validate).value) == multiset(SelectorOf(c, o2, validate).value)
  {
    SelectorOkIffAllValid(c, o1, validate);
    SelectorOkIffAllValid(c, o2, validate);
    var labels := c.k8s.labels;
    var p1, p2 := Planned(c, o1), Planned(c, o2);
    var l1, l2 := p1[..|o1|], p2[..|o2|];
    assert p1 == l1 + [MarkerRequirement, WatchRequirement(c.git.repository)];
    assert p2 == l2 + [MarkerRequirement, WatchRequirement(c.git.repository)];
    forall x
      ensures x in l1 <==> x in l2
    {
      if x in l1 {
        var i :| 0 <= i < |l1| && l1[i] == x;
        assert o1[i] in labels;
        var j :| 0 <= j < |o2| && o2[j] == o1[i];
        assert l2[j] == x;
      }
      if x in l2 {
        var j :| 0 <= j < |l2| && l2[j] == x;
        assert o2[j] in labels;
        var i :| 0 <= i < |o1| && o1[i] == o2[j];
        assert l1[i] == x;
      }
    }
    assert Distinct(l1) by {
      forall i, j | 0 <= i < j < |l1| ensures l1[i] != l1[j] {
        assert l1[i].key == o1[i] && l1[j].key == o1[j];
      }
    }
    assert Distinct(l2) by {
      forall i, j | 0 <= i < j < |l2| ensures l2[i] != l2[j] {
        assert l2[i].key == o2[i] && l2[j].key == o2[j];
      }
    }
    DistinctSameElements(l1, l2);
  }

  // ===== querying the cluster =====

  /** getPodList. `listed` is the cluster's answer to the list query, if one is sent.
      A selector error is returned before any query; a query error is returned unchanged.
      The query records the requirements handed to selector.Add, not the selector value
      itself, whose contents depend on the client library. */
  function GetPodList(c: Config, order: seq<string>, validate: Validator, listed: Result<seq<Pod>>)
    : (t: Traced<Result<seq<Pod>>>)
    requires IsIterationOrder(order, c.k8s.labels)
    ensures t.sent == [] <==> !AllValid(c, validate)
    ensures t.sent == [] ==> SelectorOf(c, order, validate).Err? && t.result == Err(SelectorOf(c, order, validate).error)
    ensures t.sent != [] ==> t.sent == [ListPods(c.k8s.namespace, Planned(c, order))] && t.result == listed
  {
    SelectorOkIffAllValid(c, order, validate);
    var selector := SelectorOf(c, order, validate);
    if selector.Err? then Traced(Err(selector.error), [])
    else Traced(listed, [ListPods(c.k8s.namespace, selector.value)])
  }

  /** CheckContainerExist, with Go's (bool, error) pair. Despite its name it answers
      "nothing matched": true exactly for an empty match list, false for any
      non-empty one, and false together with the error on failure. */
  function CheckContainerExist(c: Config, order: seq<string>, validate: Validator, listed: Result<seq<Pod>>)
    : (t: Traced<(bool, Option<Error>)>)
    requires IsIterationOrder(order, c.k8s.labels)
    ensures t.sent == GetPodList(c, order, validate, listed).sent
    ensures t.result == (true, None) <==> AllValid(c, validate) && listed == Ok([])
    ensures t.result == (false, None) <==> AllValid(c, validate) && listed.Ok? && |listed.value| > 0
    ensures !AllValid(c, validate) ==> t.result == (false, Some(SelectorOf(c, order, validate).error))
    ensures AllValid(c, validate) && listed.Err? ==> t.result == (false, Some(listed.error))
  {
    var q := GetPodList(c, order, validate, listed);
    var absent :=
      if q.result.Err? then (false, Some(q.result.error))
      else if |q.result.value| > 0 then (false, None)
      else (true, None);
    Traced(absent, q.sent)
  }

  /** Refresh. `updated` is the cluster's answer to the update request, if one is
      sent. The first matched pod is copied and its first container's image cleared,
      but the pod submitted is a fresh empty one: the mutation never leaves the method. */
  method Refresh(c: Config, order: seq<string>, validate: Validator, listed: Result<seq<Pod>>, updated: Result<Pod>)
    returns (t: Traced<Outcome<Result<Pod>>>)
    requires IsIterationOrder(order, c.k8s.labels)
    ensures GetPodList(c, order, validate, listed).sent <= t.sent
    ensures forall r :: r in t.sent && r.UpdatePod? ==> r == UpdatePod(c.k8s.namespace, EmptyPod)
    ensures !AllValid(c, validate) ==>
      t.result == Returned(Err(SelectorOf(c, order, validate).error)) && t.sent == []
    ensures AllValid(c, validate) && listed.Err? ==>
      t.result == Returned(Err(listed.error)) && t.sent == [ListPods(c.k8s.namespace, Planned(c, order))]
    ensures AllValid(c, validate) && listed == Ok([]) ==>
      t.result == IndexOutOfRange(FirstPod) && t.sent == [ListPods(c.k8s.namespace, Planned(c, order))]
    ensures AllValid(c, validate) && listed.Ok? && listed.value != [] && listed.value[0].containers == [] ==>
      t.result == IndexOutOfRange(FirstContainer) && t.sent == [ListPods(c.k8s.namespace, Planned(c, order))]
    ensures AllValid(c, validate) && listed.Ok? && listed.value != [] && listed.value[0].containers != [] ==>
      t.result == Returned(updated)
      && t.sent == [ListPods(c.k8s.namespace, Planned(c, order)), UpdatePod(c.k8s.namespace, EmptyPod)]
  {
    var pod := EmptyPod;
    var q := GetPodList(c, order, validate, listed);
    if q.result.Err? {
      t := Traced(Returned(Err(q.result.error)), q.sent);
      return;
    }
    var pods := q.result.value;
    if |pods| == 0 {
      t := Traced(IndexOutOfRange(FirstPod), q.sent);
      return;
    }
    var p := pods[0];
    if |p.containers| == 0 {
      t := Traced(IndexOutOfRange(FirstContainer), q.sent);
      return;
    }
    p := p.(containers := p.containers[0 := p.containers[0].(image := "")]);
    t := Traced(Returned(updated), q.sent + [UpdatePod(c.k8s.namespace, pod)]);
  }

  // ===== creating the pod =====

  /** The `ports` slice of Create: made with length |expose| (zero entries) and then
      appended to, one entry per exposed port, so it ends with 2 * |expose| entries. */
  method BuildPorts(expose: seq<int>) returns (ports: seq<ContainerPort>)
    ensures |ports| == 2 * |expose|
    ensures forall i :: 0 <= i < |expose| ==> ports[i] == ZeroPort
    ensures forall i :: 0 <= i < |expose| ==>
      ports[|expose| + i] == ContainerPort(Int32(expose[i]), Int32(expose[i]))
  {
    ports := seq(|expose|, _ => ZeroPort);
    var i := 0;
    while i < |expose|
      invariant 0 <= i <= |expose|
      invariant |ports| == |expose| + i
      invariant forall j :: 0 <= j < |expose| ==> ports[j] == ZeroPort
      invariant forall j :: 0 <= j < i ==> ports[|expose| + j] == ContainerPort(Int32(expose[j]), Int32(expose[j]))
    {
      var port := ZeroPort;
      port := port.(hostPort := Int32(expose[i]));
      port := port.(containerPort := Int32(expose[i]));
      ports := ports + [port];
      i := i + 1;
    }
  }

  /** Create. `created` is the cluster's answer to the create request. The submitted
      pod carries the configured identity, and two containers, both zero valued: the
      one `make` put there and the empty-image one appended after it. The ports
      slice is built and dropped, so no container exposes any port. */
  method Create(c: Config, created: Result<Pod>) returns (t: Traced<Result<Pod>>)
    ensures |t.sent| == 1 && t.sent[0].CreatePod? && t.sent[0].namespace == c.k8s.namespace
    ensures var p := t.sent[0].pod;
      && p.kind == "Pod" && p.apiVersion == "v1"
      && p.namespace == c.k8s.namespace && p.labels == c.k8s.labels && p.name == c.git.repository
    ensures |t.sent[0].pod.containers| == 2
    ensures forall i :: 0 <= i < |t.sent[0].pod.containers| ==>
      t.sent[0].pod.containers[i].image == "" && t.sent[0].pod.containers[i].ports == []
    ensures t.sent[0].pod != IntendedPod(c)
    ensures t.result == created
  {
    var p := EmptyPod;
    p := p.(kind := "Pod");
    p := p.(namespace := c.k8s.namespace);
    p := p.(labels := c.k8s.labels);
    p := p.(apiVersion := "v1");
    p := p.(name := c.git.repository);

    var container := ZeroContainer;
    container := container.(image := "");
    var ports := BuildPorts(c.build.expose);
    var containers := seq(1, _ => ZeroContainer);
    containers := containers + [container];
    p := p.(containers := containers);

    t := Traced(created, [CreatePod(c.k8s.namespace, p)]);
  }

  // ----- the descriptor Create evidently means to build -----

  /** One container whose port list has one entry per exposed port, in order, with
      host port equal to container port. */
  function IntendedPod(c: Config): (p: Pod)
    ensures p.kind == "Pod" && p.apiVersion == "v1"
    ensures p.namespace == c.k8s.namespace && p.labels == c.k8s.labels && p.name == c.git.repository
    ensures |p.containers| == 1 && p.containers[0].image == ""
    ensures |p.containers[0].ports| == |c.build.expose|
    ensures forall i :: 0 <= i < |c.build.expose| ==>
      p.containers[0].ports[i].hostPort == p.containers[0].ports[i].containerPort == Int32(c.build.expose[i])
  {
    var expose := c.build.expose;
    var ports := seq(|expose|, i requires 0 <= i < |expose| => ContainerPort(Int32(expose[i]), Int32(expose[i])));
    Pod("Pod", "v1", c.git.repository, c.k8s.namespace, c.k8s.labels, [Container("", ports)])
  }
}
