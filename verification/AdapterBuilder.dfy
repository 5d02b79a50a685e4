/** Building the desired adapter of an instance from a list of options that
    are applied one after the other. */
module AdapterBuilder {
  import opened Wrappers
  import opened Objects
  import opened Components
  import Semantic

  datatype ObjectOption =
    | Controller(instance: Instance)
    | Label(key: string, value: string)
    | Annotation(key: string, value: string)
    | PodLabel(key: string, value: string)
    | PodAnnotation(key: string, value: string)
    | Selector(key: string, value: string)
    | AccountName(name: string)
    | Env(key: string, value: string)
    | EnvFromSecret(key: string, secret: SecretKey)
    | EnvVars(vars: seq<EnvVar>)
    | Port(name: string, port: int)
    | Image(image: string)
    | HttpProbe(path: string, probePort: string)
    | Requests(cpu: Option<nat>, mem: Option<nat>)
    | Limits(cpu: Option<nat>, mem: Option<nat>)
    | TerminationErrorToLogs
    | VisibilityClusterLocal
    | VisibilityPublic
    | OverrideVisibility(isPublic: Option<bool>)
    | Toleration(toleration: string)
    | NodeSelector(key: string, value: string)
    | Affinity(affinity: string)
    | AddContainer(container: Container)

  const CLUSTER_LOCAL := "cluster-local"
  const CPU := "cpu"
  const MEMORY := "memory"
  const DEFAULT_CONTAINER_NAME := "adapter"
  const FALLBACK_TO_LOGS := "FallbackToLogsOnError"
  const METRICS_PORT_NAME := "metrics"
  const METRICS_PORT := 9092

  const EMPTY_CONTAINER := Container("", "", "", [], [], map[], map[], None)

  function EmptyAdapter(backend: Backend, name: string): Adapter
  {
    Adapter(backend, ObjectMeta(name, 0, 0, map[], map[], []), map[], None,
            PodTemplate(map[], map[], "", map[], [], None, []))
  }

  // ------------------------------------------------------- effect of one option

  /** The containers with the first one replaced; an empty one is injected
      when there is none. */
  function First(cs: seq<Container>): Container
  {
    if cs == [] then EMPTY_CONTAINER else cs[0]
  }

  function WithFirst(cs: seq<Container>, c: Container): seq<Container>
  {
    if cs == [] then [c] else cs[0 := c]
  }

  function SetResources(r: ResourceList, cpu: Option<nat>, mem: Option<nat>): ResourceList
  {
    var withCpu := if cpu.Some? then r[CPU := cpu.value] else r;
    if mem.Some? then withCpu[MEMORY := mem.value] else withCpu
  }

  function ApplyToContainer(backend: Backend, c: Container, o: ObjectOption): Container
  {
    match o
    case Env(k, v) => c.(env := c.env + [EnvVar(k, v, None)])
    case EnvFromSecret(k, s) => c.(env := c.env + [EnvVar(k, "", Some(s))])
    case EnvVars(vs) => c.(env := c.env + vs)
    case Port(n, p) =>
      if backend.Deployment? then c.(ports := c.ports + [ContainerPort(n, p, "")])
      else c.(ports := [ContainerPort(n, p, "")])
    case Image(i) => c.(image := i)
    case HttpProbe(path, port) =>
      c.(readinessProbe := Some(Probe(path, if backend.Deployment? then port else "", 0, 0, 0, 0, 0)))
    case Requests(cpu, mem) => c.(requests := SetResources(c.requests, cpu, mem))
    case Limits(cpu, mem) => c.(limits := SetResources(c.limits, cpu, mem))
    case TerminationErrorToLogs => c.(terminationMessagePolicy := FALLBACK_TO_LOGS)
    case _ => c
  }

  predicate IsContainerOption(o: ObjectOption)
  {
    o.Env? || o.EnvFromSecret? || o.EnvVars? || o.Port? || o.Image? || o.HttpProbe? || o.Requests? || o.Limits?
    || o.TerminationErrorToLogs?
  }

  predicate IsMetaOption(o: ObjectOption)
  {
    o.Controller? || o.Label? || o.Annotation? || o.VisibilityClusterLocal? || o.VisibilityPublic? || o.OverrideVisibility?
  }

  function ApplyToTemplate(backend: Backend, t: PodTemplate, o: ObjectOption): PodTemplate
  {
    if IsContainerOption(o) then
      t.(containers := WithFirst(t.containers, ApplyToContainer(backend, First(t.containers), o)))
    else
      match o
      case PodLabel(k, v) => t.(labels := t.labels[k := v])
      case Selector(k, v) => t.(labels := t.labels[k := v])
      case PodAnnotation(k, v) => t.(annotations := t.annotations[k := v])
      case AccountName(n) => t.(serviceAccountName := n)
      case Toleration(x) => t.(tolerations := t.tolerations + [x])
      case NodeSelector(k, v) => t.(nodeSelector := t.nodeSelector[k := v])
      case Affinity(x) => t.(affinity := Some(x))
      case AddContainer(c) => t.(containers := if backend.Deployment? then t.containers + [c] else [c])
      case _ => t
  }

  function ApplyToMeta(backend: Backend, m: ObjectMeta, o: ObjectOption): ObjectMeta
  {
    match o
    case Controller(i) => m.(owners := m.owners + [InstanceRef(i, true)])
    case Label(k, v) => m.(labels := m.labels[k := v])
    case Annotation(k, v) => m.(annotations := m.annotations[k := v])
    case VisibilityClusterLocal => m.(labels := m.labels[Semantic.VISIBILITY_LABEL := CLUSTER_LOCAL])
    case VisibilityPublic => m.(labels := m.labels - {Semantic.VISIBILITY_LABEL})
    case OverrideVisibility(p) =>
      if backend.Deployment? then m
      else if p == Some(true) then m.(labels := m.labels - {Semantic.VISIBILITY_LABEL})
      else m.(labels := m.labels[Semantic.VISIBILITY_LABEL := CLUSTER_LOCAL])
    case _ => m
  }

  function ApplyToSelector(selector: StringMap, o: ObjectOption): StringMap
  {
    if o.Selector? then selector[o.key := o.value] else selector
  }

  function ApplyOption(a: Adapter, o: ObjectOption): Adapter
  {
    Adapter(a.backend, ApplyToMeta(a.backend, a.meta, o),
            ApplyToSelector(a.selector, o), a.replicas, ApplyToTemplate(a.backend, a.template, o))
  }

  function Fold(a: Adapter, options: seq<ObjectOption>): Adapter
    decreases |options|
  {
    if options == [] then a else Fold(ApplyOption(a, options[0]), options[1..])
  }

  /** A single container without a name gets the default one. */
  function NameContainer(a: Adapter): Adapter
  {
    if |a.template.containers| == 1 && a.template.containers[0].name == "" then
      a.(template := a.template.(containers := [a.template.containers[0].(name := DEFAULT_CONTAINER_NAME)]))
    else a
  }

  function Build(backend: Backend, name: string, options: seq<ObjectOption>): Adapter
  {
    NameContainer(Fold(EmptyAdapter(backend, name), options))
  }

  // ----------------------------------------------------- the mutable object

  /** The object that options mutate in place. */
  class AdapterObject {
    const backend: Backend
    var name: string
    var version: nat
    var labels: StringMap
    var annotations: StringMap
    var owners: seq<OwnerReference>
    var selector: StringMap
    var podLabels: StringMap
    var podAnnotations: StringMap
    var serviceAccountName: string
    var nodeSelector: StringMap
    var tolerations: seq<string>
    var affinity: Option<string>
    var containers: seq<Container>

    function Value(): Adapter
      reads this
    {
      Adapter(backend, ObjectMeta(name, 0, version, labels, annotations, owners), selector, None,
              PodTemplate(podLabels, podAnnotations, serviceAccountName, nodeSelector, tolerations, affinity, containers))
    }

    constructor (backend: Backend, name: string)
      ensures Value() == EmptyAdapter(backend, name)
    {
      this.backend := backend;
      this.name, version := name, 0;
      labels, annotations, owners, selector := map[], map[], [], map[];
      podLabels, podAnnotations, serviceAccountName, nodeSelector := map[], map[], "", map[];
      tolerations, affinity, containers := [], None, [];
    }

    /** firstContainer: an empty container is injected when there is none. */
    method EnsureContainer()
      modifies this`containers
      ensures containers == WithFirst(old(containers), First(old(containers))) && containers != []
    {
      if |containers| == 0 {
        containers := [EMPTY_CONTAINER];
      }
    }

    method ApplyContainerOption(o: ObjectOption)
      requires IsContainerOption(o)
      modifies this`containers
      ensures Value() == ApplyOption(old(Value()), o)
    {
      EnsureContainer();
      containers := containers[0 := ApplyToContainer(backend, containers[0], o)];
    }

    method ApplyMetaOption(o: ObjectOption)
      requires IsMetaOption(o)
      modifies this`owners, this`labels, this`annotations
      ensures Value() == old(Value()).(meta := ApplyToMeta(backend, old(Value()).meta, o))
    {
      match o {
        case Controller(i) => owners := owners + [InstanceRef(i, true)];
        case Label(k, v) => labels := labels[k := v];
        case Annotation(k, v) => annotations := annotations[k := v];
        case VisibilityClusterLocal => labels := labels[Semantic.VISIBILITY_LABEL := CLUSTER_LOCAL];
        case VisibilityPublic => labels := labels - {Semantic.VISIBILITY_LABEL};
        case OverrideVisibility(p) =>
          if backend.KnativeService? {
            if p == Some(true) {
              labels := labels - {Semantic.VISIBILITY_LABEL};
            } else {
              labels := labels[Semantic.VISIBILITY_LABEL := CLUSTER_LOCAL];
            }
          }
      }
    }

    method ApplyPodOption(o: ObjectOption)
      requires !IsMetaOption(o) && !IsContainerOption(o)
      modifies this
      ensures Value() == old(Value()).(selector := ApplyToSelector(old(selector), o),
                                       template := ApplyToTemplate(backend, old(Value()).template, o))
    {
      match o {
        case PodLabel(k, v) => podLabels := podLabels[k := v];
        case PodAnnotation(k, v) => podAnnotations := podAnnotations[k := v];
        case Selector(k, v) =>
          selector := selector[k := v];
          podLabels := podLabels[k := v];
        case AccountName(n) => serviceAccountName := n;
        case Toleration(x) => tolerations := tolerations + [x];
        case NodeSelector(k, v) => nodeSelector := nodeSelector[k := v];
        case Affinity(x) => affinity := Some(x);
        case AddContainer(c) => containers := if backend.Deployment? then containers + [c] else [c];
      }
    }

    method Apply(o: ObjectOption)
      modifies this
      ensures Value() == ApplyOption(old(Value()), o)
    {
      if IsContainerOption(o) {
        ApplyContainerOption(o);
      } else if IsMetaOption(o) {
        ApplyMetaOption(o);
      } else {
        ApplyPodOption(o);
      }
    }
  }

  /** NewDeployment and NewKnService. */
  method NewAdapterObject(backend: Backend, name: string, options: seq<ObjectOption>) returns (d: AdapterObject)
    ensures fresh(d) && d.Value() == Build(backend, name, options)
  {
    d := new AdapterObject(backend, name);
    for i := 0 to |options|
      invariant fresh(d) && d.Value() == Fold(EmptyAdapter(backend, name), options[..i])
    {
      d.Apply(options[i]);
      assert options[..i + 1] == options[..i] + [options[i]];
      FoldAppend(EmptyAdapter(backend, name), options[..i], [options[i]]);
    }
    assert options[..|options|] == options;
    if |d.containers| == 1 && d.containers[0].name == "" {
      d.containers := [d.containers[0].(name := DEFAULT_CONTAINER_NAME)];
    }
  }

  lemma {:induction false} FoldAppend(a: Adapter, first: seq<ObjectOption>, second: seq<ObjectOption>)
    ensures Fold(a, first + second) == Fold(Fold(a, first), second)
    decreases |first|
  {
    if first == [] {
      assert first + second == second;
    } else {
      FoldAppend(ApplyOption(a, first[0]), first[1..], second);
      assert (first + second)[1..] == first[1..] + second;
    }
  }

  // ---------------------------------------------------------------- overrides

  /** `keys` is an order in which iterating over `m` may visit its keys. */
  ghost predicate Enumerates(keys: seq<string>, m: StringMap)
  {
    && (forall i, j :: 0 <= i < j < |keys| ==> keys[i] != keys[j])
    && (forall k :: k in keys <==> k in m)
  }

  function NodeSelectorOptions(keys: seq<string>, m: StringMap): seq<ObjectOption>
    requires forall k :: k in keys ==> k in m
  {
    if keys == [] then []
    else NodeSelectorOptions(keys[..|keys| - 1], m) + [NodeSelector(keys[|keys| - 1], m[keys[|keys| - 1]])]
  }

  function LabelOptions(keys: seq<string>, m: StringMap): seq<ObjectOption>
    requires forall k :: k in keys ==> k in m
  {
    if keys == [] then []
    else
      var k := keys[|keys| - 1];
      LabelOptions(keys[..|keys| - 1], m) + [Label(k, m[k]), PodLabel(k, m[k])]
  }

  function AnnotationOptions(keys: seq<string>, m: StringMap): seq<ObjectOption>
    requires forall k :: k in keys ==> k in m
  {
    if keys == [] then []
    else
      var k := keys[|keys| - 1];
      AnnotationOptions(keys[..|keys| - 1], m) + [Annotation(k, m[k]), PodAnnotation(k, m[k])]
  }

  function ResourceOptions(r: Option<Resources>): seq<ObjectOption>
  {
    if r.None? then []
    else [Requests(Quantity(r.value.requests, CPU), Quantity(r.value.requests, MEMORY)),
          Limits(Quantity(r.value.limits, CPU), Quantity(r.value.limits, MEMORY))]
  }

  function Quantity(r: ResourceList, name: string): Option<nat>
  {
    if name in r then Some(r[name]) else None
  }

  function TolerationOptions(ts: seq<string>): seq<ObjectOption>
  {
    seq(|ts|, i requires 0 <= i < |ts| => Toleration(ts[i]))
  }

  function EnvOptions(env: seq<(string, string)>): seq<ObjectOption>
  {
    seq(|env|, i requires 0 <= i < |env| => Env(env[i].0, env[i].1))
  }

  /** The options up to the first loop over a map, and between the loops. */
  function HeadOptions(o: AdapterOverrides): seq<ObjectOption>
  {
    [OverrideVisibility(o.isPublic)] + ResourceOptions(o.resources) + TolerationOptions(o.tolerations)
  }

  function MiddleOptions(o: AdapterOverrides): seq<ObjectOption>
  {
    (if o.affinity.Some? then [Affinity(o.affinity.value)] else []) + EnvOptions(o.env)
  }

  /** The orders in which the three maps of the overrides were visited. */
  datatype Orders = Orders(nodeSelector: seq<string>, labels: seq<string>, annotations: seq<string>)

  ghost predicate Visits(v: Orders, o: AdapterOverrides)
  {
    Enumerates(v.nodeSelector, o.nodeSelector) && Enumerates(v.labels, o.labels)
    && Enumerates(v.annotations, o.annotations)
  }

  ghost function OverrideOptions(o: AdapterOverrides, v: Orders): seq<ObjectOption>
    requires Visits(v, o)
  {
    HeadOptions(o) + NodeSelectorOptions(v.nodeSelector, o.nodeSelector) + MiddleOptions(o)
    + LabelOptions(v.labels, o.labels) + AnnotationOptions(v.annotations, o.annotations)
  }

  /** `toQuantity`, visiting the list in any order. */
  method ToQuantity(resources: ResourceList) returns (cpu: Option<nat>, mem: Option<nat>)
    ensures cpu == Quantity(resources, CPU) && mem == Quantity(resources, MEMORY)
  {
    cpu, mem := None, None;
    var left := resources.Keys;
    while left != {}
      invariant left <= resources.Keys
      invariant cpu == if CPU in resources.Keys - left then Some(resources[CPU]) else None
      invariant mem == if MEMORY in resources.Keys - left then Some(resources[MEMORY]) else None
      decreases left
    {
      var k :| k in left;
      if k == CPU {
        cpu := Some(resources[k]);
      } else if k == MEMORY {
        mem := Some(resources[k]);
      }
      left := left - {k};
    }
  }

  /** `adapterOverrideOptions`: each of the three loops over a map visits the
      keys in any order. */
  method AdapterOverrideOptions(o: AdapterOverrides) returns (opts: seq<ObjectOption>, ghost v: Orders)
    ensures Visits(v, o) && opts == OverrideOptions(o, v)
  {
    opts := [OverrideVisibility(o.isPublic)];
    if o.resources.Some? {
      var cpu, mem := ToQuantity(o.resources.value.requests);
      opts := opts + [Requests(cpu, mem)];
      cpu, mem := ToQuantity(o.resources.value.limits);
      opts := opts + [Limits(cpu, mem)];
    }
    for i := 0 to |o.tolerations|
      invariant opts == [OverrideVisibility(o.isPublic)] + ResourceOptions(o.resources) + TolerationOptions(o.tolerations[..i])
    {
      opts := opts + [Toleration(o.tolerations[i])];
      assert TolerationOptions(o.tolerations[..i + 1]) == TolerationOptions(o.tolerations[..i]) + [Toleration(o.tolerations[i])];
    }
    assert o.tolerations[..|o.tolerations|] == o.tolerations;
    assert opts == HeadOptions(o);

    var selectors, ns := VisitNodeSelector(o.nodeSelector);
    opts := opts + selectors;
    if o.affinity.Some? {
      opts := opts + [Affinity(o.affinity.value)];
    }
    ghost var before := opts;
    for i := 0 to |o.env|
      invariant opts == before + EnvOptions(o.env[..i])
    {
      opts := opts + [Env(o.env[i].0, o.env[i].1)];
      assert EnvOptions(o.env[..i + 1]) == EnvOptions(o.env[..i]) + [Env(o.env[i].0, o.env[i].1)];
    }
    assert o.env[..|o.env|] == o.env;
    assert opts == HeadOptions(o) + selectors + MiddleOptions(o);

    var labels, ls := VisitLabels(o.labels);
    opts := opts + labels;
    var annotations, an := VisitAnnotations(o.annotations);
    opts := opts + annotations;
    v := Orders(ns, ls, an);
  }

  method VisitNodeSelector(m: StringMap) returns (opts: seq<ObjectOption>, ghost keys: seq<string>)
    ensures Enumerates(keys, m) && opts == NodeSelectorOptions(keys, m)
  {
    opts, keys := [], [];
    var left := m.Keys;
    while left != {}
      invariant left <= m.Keys && forall k :: k in keys <==> k in m.Keys - left
      invariant forall i, j :: 0 <= i < j < |keys| ==> keys[i] != keys[j]
      invariant opts == NodeSelectorOptions(keys, m)
      decreases left
    {
      var k :| k in left;
      opts := opts + [NodeSelector(k, m[k])];
      assert k !in keys && (keys + [k])[..|keys|] == keys;
      keys := keys + [k];
      left := left - {k};
    }
  }

  method VisitLabels(m: StringMap) returns (opts: seq<ObjectOption>, ghost keys: seq<string>)
    ensures Enumerates(keys, m) && opts == LabelOptions(keys, m)
  {
    opts, keys := [], [];
    var left := m.Keys;
    while left != {}
      invariant left <= m.Keys && forall k :: k in keys <==> k in m.Keys - left
      invariant forall i, j :: 0 <= i < j < |keys| ==> keys[i] != keys[j]
      invariant opts == LabelOptions(keys, m)
      decreases left
    {
      var k :| k in left;
      opts := opts + [Label(k, m[k]), PodLabel(k, m[k])];
      assert k !in keys && (keys + [k])[..|keys|] == keys;
      keys := keys + [k];
      left := left - {k};
    }
  }

  method VisitAnnotations(m: StringMap) returns (opts: seq<ObjectOption>, ghost keys: seq<string>)
    ensures Enumerates(keys, m) && opts == AnnotationOptions(keys, m)
  {
    opts, keys := [], [];
    var left := m.Keys;
    while left != {}
      invariant left <= m.Keys && forall k :: k in keys <==> k in m.Keys - left
      invariant forall i, j :: 0 <= i < j < |keys| ==> keys[i] != keys[j]
      invariant opts == AnnotationOptions(keys, m)
      decreases left
    {
      var k :| k in left;
      opts := opts + [Annotation(k, m[k]), PodAnnotation(k, m[k])];
      assert k !in keys && (keys + [k])[..|keys|] == keys;
      keys := keys + [k];
      left := left - {k};
    }
  }

  // --------------------------------------------- the order does not matter

  function Restrict(m: StringMap, keys: seq<string>): StringMap
  {
    map k | k in m && k in keys :: m[k]
  }

  lemma RestrictSnoc(m: StringMap, init: seq<string>, k: string, base: StringMap)
    requires k in m
    ensures (base + Restrict(m, init))[k := m[k]] == base + Restrict(m, init + [k])
  {
  }

  lemma RestrictAll(m: StringMap, keys: seq<string>)
    requires Enumerates(keys, m)
    ensures Restrict(m, keys) == m
  {
  }

  lemma {:induction false} FoldNodeSelectors(a: Adapter, keys: seq<string>, m: StringMap)
    requires forall k :: k in keys ==> k in m
    ensures Fold(a, NodeSelectorOptions(keys, m))
            == a.(template := a.template.(nodeSelector := a.template.nodeSelector + Restrict(m, keys)))
  {
    if keys == [] {
      assert a.template.nodeSelector + Restrict(m, keys) == a.template.nodeSelector;
    } else {
      var init, k := keys[..|keys| - 1], keys[|keys| - 1];
      assert init + [k] == keys;
      FoldNodeSelectors(a, init, m);
      FoldAppend(a, NodeSelectorOptions(init, m), [NodeSelector(k, m[k])]);
      FoldOne(Fold(a, NodeSelectorOptions(init, m)), NodeSelector(k, m[k]));
      RestrictSnoc(m, init, k, a.template.nodeSelector);
    }
  }

  lemma FoldOne(a: Adapter, o: ObjectOption)
    ensures Fold(a, [o]) == ApplyOption(a, o)
  {
    assert [o][1..] == [];
  }

  lemma FoldTwo(a: Adapter, o: ObjectOption, p: ObjectOption)
    ensures Fold(a, [o, p]) == ApplyOption(ApplyOption(a, o), p)
  {
    assert [o, p][1..] == [p];
    FoldOne(ApplyOption(a, o), p);
  }

  lemma {:induction false} FoldLabels(a: Adapter, keys: seq<string>, m: StringMap)
    requires forall k :: k in keys ==> k in m
    ensures Fold(a, LabelOptions(keys, m))
            == a.(meta := a.meta.(labels := a.meta.labels + Restrict(m, keys)),
                  template := a.template.(labels := a.template.labels + Restrict(m, keys)))
  {
    if keys == [] {
      assert a.meta.labels + Restrict(m, keys) == a.meta.labels;
      assert a.template.labels + Restrict(m, keys) == a.template.labels;
    } else {
      var init, k := keys[..|keys| - 1], keys[|keys| - 1];
      assert init + [k] == keys;
      FoldLabels(a, init, m);
      FoldAppend(a, LabelOptions(init, m), [Label(k, m[k]), PodLabel(k, m[k])]);
      FoldTwo(Fold(a, LabelOptions(init, m)), Label(k, m[k]), PodLabel(k, m[k]));
      RestrictSnoc(m, init, k, a.meta.labels);
      RestrictSnoc(m, init, k, a.template.labels);
    }
  }

  lemma {:induction false} FoldAnnotations(a: Adapter, keys: seq<string>, m: StringMap)
    requires forall k :: k in keys ==> k in m
    ensures Fold(a, AnnotationOptions(keys, m))
            == a.(meta := a.meta.(annotations := a.meta.annotations + Restrict(m, keys)),
                  template := a.template.(annotations := a.template.annotations + Restrict(m, keys)))
  {
    if keys == [] {
      assert a.meta.annotations + Restrict(m, keys) == a.meta.annotations;
      assert a.template.annotations + Restrict(m, keys) == a.template.annotations;
    } else {
      var init, k := keys[..|keys| - 1], keys[|keys| - 1];
      assert init + [k] == keys;
      FoldAnnotations(a, init, m);
      FoldAppend(a, AnnotationOptions(init, m), [Annotation(k, m[k]), PodAnnotation(k, m[k])]);
      FoldTwo(Fold(a, AnnotationOptions(init, m)), Annotation(k, m[k]), PodAnnotation(k, m[k]));
      RestrictSnoc(m, init, k, a.meta.annotations);
      RestrictSnoc(m, init, k, a.template.annotations);
    }
  }

  /** What overrides do to an adapter, without mentioning any order. */
  function Overridden(a: Adapter, o: AdapterOverrides): Adapter
  {
    var head := Fold(a, HeadOptions(o));
    var selected := head.(template := head.template.(nodeSelector := head.template.nodeSelector + o.nodeSelector));
    var middle := Fold(selected, MiddleOptions(o));
    middle.(
      meta := middle.meta.(labels := middle.meta.labels + o.labels, annotations := middle.meta.annotations + o.annotations),
      template := middle.template.(labels := middle.template.labels + o.labels,
                                   annotations := middle.template.annotations + o.annotations))
  }

  /** For every order of iteration the overridden adapter is the same. */
  lemma OverridesIgnoreOrder(a: Adapter, o: AdapterOverrides, v: Orders)
    requires Visits(v, o)
    ensures Fold(a, OverrideOptions(o, v)) == Overridden(a, o)
  {
    var n, l, x := NodeSelectorOptions(v.nodeSelector, o.nodeSelector), LabelOptions(v.labels, o.labels),
      AnnotationOptions(v.annotations, o.annotations);
    FoldAppend(a, HeadOptions(o) + n + MiddleOptions(o) + l, x);
    FoldAppend(a, HeadOptions(o) + n + MiddleOptions(o), l);
    FoldAppend(a, HeadOptions(o) + n, MiddleOptions(o));
    FoldAppend(a, HeadOptions(o), n);
    RestrictAll(o.nodeSelector, v.nodeSelector);
    RestrictAll(o.labels, v.labels);
    RestrictAll(o.annotations, v.annotations);
    var head := Fold(a, HeadOptions(o));
    FoldNodeSelectors(head, v.nodeSelector, o.nodeSelector);
    var middle := Fold(Fold(head, n), MiddleOptions(o));
    FoldLabels(middle, v.labels, o.labels);
    FoldAnnotations(Fold(middle, l), v.annotations, o.annotations);
  }
}
