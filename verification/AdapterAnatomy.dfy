/** What the builders make of an instance, written out field by field: the
    container, the Pod and the metadata. */
module AdapterAnatomy {
  import opened Wrappers
  import opened Objects
  import opened Components
  import opened AdapterBuilder
  import opened AdapterOptions
  import AdapterAspects
  import Text

  // ------------------------------------------------------------------ blocks

  lemma FoldThree(a: Adapter, o: ObjectOption, p: ObjectOption, q: ObjectOption)
    ensures Fold(a, [o, p, q]) == ApplyOption(ApplyOption(ApplyOption(a, o), p), q)
  {
    assert [o, p, q][1..] == [p, q];
    FoldTwo(ApplyOption(a, o), p, q);
  }

  lemma FoldFour(a: Adapter, o: ObjectOption, p: ObjectOption, q: ObjectOption, r: ObjectOption)
    ensures Fold(a, [o, p, q, r]) == ApplyOption(ApplyOption(ApplyOption(ApplyOption(a, o), p), q), r)
  {
    assert [o, p, q, r][1..] == [p, q, r];
    FoldThree(ApplyOption(a, o), p, q, r);
  }

  function WithLabels(a: Adapter, m: StringMap): Adapter
  {
    a.(meta := a.meta.(labels := a.meta.labels + m))
  }

  function WithPodLabels(a: Adapter, m: StringMap): Adapter
  {
    a.(template := a.template.(labels := a.template.labels + m))
  }

  function WithSelector(a: Adapter, m: StringMap): Adapter
  {
    a.(selector := a.selector + m)
  }

  /** The adapter with this container alone. */
  function WithContainer(a: Adapter, c: Container): Adapter
  {
    a.(template := a.template.(containers := [c]))
  }

  /** The labels that everything of a component has, and two halves of them. */
  function SelectedHalf(kind: string): StringMap
  {
    map["app.kubernetes.io/name" := Text.ToLower(kind), "app.kubernetes.io/component" := "adapter"]
  }

  function OtherHalf(): StringMap
  {
    map["app.kubernetes.io/part-of" := "triggermesh", "app.kubernetes.io/managed-by" := "triggermesh-controller"]
  }

  lemma TwoUpdates(m: StringMap, j: string, v: string, k: string, w: string)
    ensures m[j := v][k := w] == m + map[j := v, k := w]
  {
  }

  lemma NameBlock(a: Adapter, kind: string)
    ensures Fold(a, NameOptions(kind)) == WithLabels(a, SelectedHalf(kind) + OtherHalf())
  {
    var o := NameOptions(kind);
    FoldFour(a, o[0], o[1], o[2], o[3]);
    assert o == [o[0], o[1], o[2], o[3]];
    var l := a.meta.labels;
    TwoUpdates(l, APP_NAME_LABEL, Text.ToLower(kind), APP_COMPONENT_LABEL, "adapter");
    TwoUpdates(l + SelectedHalf(kind), APP_PART_OF_LABEL, "triggermesh", APP_MANAGED_BY_LABEL, "triggermesh-controller");
    assert l + SelectedHalf(kind) + OtherHalf() == l + (SelectedHalf(kind) + OtherHalf());
  }

  lemma SelectionBlock(a: Adapter, kind: string)
    ensures Fold(a, SelectionOptions(a.backend, kind))
            == WithPodLabels(if a.backend.Deployment? then WithSelector(a, SelectedHalf(kind)) else a, SelectedHalf(kind))
  {
    var o := SelectionOptions(a.backend, kind);
    assert o == [o[0], o[1]];
    FoldTwo(a, o[0], o[1]);
    TwoUpdates(a.template.labels, APP_NAME_LABEL, Text.ToLower(kind), APP_COMPONENT_LABEL, "adapter");
    if a.backend.Deployment? {
      TwoUpdates(a.selector, APP_NAME_LABEL, Text.ToLower(kind), APP_COMPONENT_LABEL, "adapter");
    }
  }

  lemma PartBlock(a: Adapter)
    ensures Fold(a, PartOptions()) == WithPodLabels(a, OtherHalf())
  {
    var o := PartOptions();
    FoldTwo(a, o[0], o[1]);
    assert o == [o[0], o[1]];
    TwoUpdates(a.template.labels, APP_PART_OF_LABEL, "triggermesh", APP_MANAGED_BY_LABEL, "triggermesh-controller");
  }

  /** The variables that every adapter gets. */
  function CommonVariables(kind: string): seq<EnvVar>
  {
    [EnvVar("K_COMPONENT", Text.ToLower(kind), None), EnvVar("K_SINK_TIMEOUT", "30", None),
     EnvVar("METRICS_PROMETHEUS_PORT", "9092", None)]
  }

  /** The adapter with more variables in its first container. */
  function WithVariables(a: Adapter, vars: seq<EnvVar>): Adapter
    requires |a.template.containers| <= 1
  {
    var c := First(a.template.containers);
    WithContainer(a, c.(env := c.env + vars))
  }

  lemma OneVariable(a: Adapter, k: string, v: string)
    requires |a.template.containers| <= 1
    ensures ApplyOption(a, Env(k, v)) == WithVariables(a, [EnvVar(k, v, None)])
  {
  }

  lemma VariablesTwice(a: Adapter, x: seq<EnvVar>, y: seq<EnvVar>)
    requires |a.template.containers| <= 1
    ensures WithVariables(WithVariables(a, x), y) == WithVariables(a, x + y)
  {
    var e := First(a.template.containers).env;
    assert e + x + y == e + (x + y);
  }

  lemma ThreeVariables(a: Adapter, i: string, u: string, j: string, v: string, k: string, w: string)
    requires |a.template.containers| <= 1
    ensures Fold(a, [Env(i, u), Env(j, v), Env(k, w)])
            == WithVariables(a, [EnvVar(i, u, None), EnvVar(j, v, None), EnvVar(k, w, None)])
  {
    FoldThree(a, Env(i, u), Env(j, v), Env(k, w));
    var x, y, z := [EnvVar(i, u, None)], [EnvVar(j, v, None)], [EnvVar(k, w, None)];
    OneVariable(a, i, u);
    OneVariable(WithVariables(a, x), j, v);
    VariablesTwice(a, x, y);
    OneVariable(WithVariables(a, x + y), k, w);
    VariablesTwice(a, x + y, z);
    assert x + y + z == [EnvVar(i, u, None), EnvVar(j, v, None), EnvVar(k, w, None)];
  }

  lemma PortLast(a: Adapter, c: Container)
    requires a.backend.Deployment? && a.template.containers == [c]
    ensures Fold(a, [Port("metrics", 9092)]) == WithContainer(a, c.(ports := c.ports + [ContainerPort("metrics", 9092, "")]))
  {
    FoldOne(a, Port("metrics", 9092));
  }

  lemma RuntimeBlock(a: Adapter, rcl: Instance)
    requires |a.template.containers| <= 1
    ensures var b, c := WithVariables(a, CommonVariables(rcl.kind)), First(a.template.containers);
            Fold(a, RuntimeOptions(a.backend, rcl))
            == if a.backend.Deployment? then
                 WithContainer(b, b.template.containers[0].(ports := c.ports + [ContainerPort("metrics", 9092, "")]))
               else b
  {
    var kind := ComponentName(rcl.kind);
    var vars := [Env("K_COMPONENT", kind), Env("K_SINK_TIMEOUT", "30"), Env("METRICS_PROMETHEUS_PORT", "9092")];
    ThreeVariables(a, "K_COMPONENT", kind, "K_SINK_TIMEOUT", "30", "METRICS_PROMETHEUS_PORT", "9092");
    var b := WithVariables(a, CommonVariables(rcl.kind));
    if a.backend.Deployment? {
      FoldAppend(a, vars, [Port("metrics", 9092)]);
      PortLast(b, b.template.containers[0]);
    } else {
      assert vars + [] == vars;
    }
  }

  // ------------------------------------------------- the fixed options

  function AppLabels(kind: string): StringMap
  {
    map["app.kubernetes.io/name" := Text.ToLower(kind), "app.kubernetes.io/component" := "adapter",
        "app.kubernetes.io/part-of" := "triggermesh", "app.kubernetes.io/managed-by" := "triggermesh-controller"]
  }

  /** A Knative Service is local to the cluster unless it is asked to be public. */
  function LocalOnly(): StringMap
  {
    map["networking.knative.dev/visibility" := "cluster-local"]
  }

  function StartContainer(backend: Backend, kind: string): Container
  {
    Container("", "", if backend.Deployment? then "FallbackToLogsOnError" else "", CommonVariables(kind),
              if backend.Deployment? then [ContainerPort("metrics", 9092, "")] else [], map[], map[], None)
  }

  /** What the fixed options make of an empty object. */
  function Start(backend: Backend, rcl: Instance, name: string): Adapter
  {
    Adapter(backend,
            ObjectMeta(name, 0, 0, (if backend.Deployment? then map[] else LocalOnly()) + AppLabels(rcl.kind), map[], []),
            if backend.Deployment? then SelectedHalf(rcl.kind) else map[], None,
            PodTemplate(AppLabels(rcl.kind), map[], DesiredAccount(rcl, []).meta.name, map[], [], None,
                        [StartContainer(backend, rcl.kind)]))
  }

  function AfterFirst(backend: Backend, name: string): Adapter
  {
    var a := EmptyAdapter(backend, name);
    if backend.Deployment? then
      WithContainer(a, Container("", "", "FallbackToLogsOnError", [], [], map[], map[], None))
    else a.(meta := a.meta.(labels := LocalOnly()))
  }

  lemma FirstBlock(backend: Backend, name: string)
    ensures Fold(EmptyAdapter(backend, name), FirstOption(backend)) == AfterFirst(backend, name)
  {
    FoldOne(EmptyAdapter(backend, name), FirstOption(backend)[0]);
    assert FirstOption(backend) == [FirstOption(backend)[0]];
    assert EmptyAdapter(backend, name).meta.labels["networking.knative.dev/visibility" := "cluster-local"] == LocalOnly();
  }

  lemma AccountBlock(a: Adapter, rcl: Instance)
    ensures Fold(a, AccountNameOption(rcl))
            == a.(template := a.template.(serviceAccountName := DesiredAccount(rcl, []).meta.name))
  {
    FoldOne(a, AccountNameOption(rcl)[0]);
    assert AccountNameOption(rcl) == [AccountNameOption(rcl)[0]];
  }

  lemma FixedFolds(a: Adapter, rcl: Instance)
    ensures var b := a.backend;
            Fold(a, FixedOptions(b, rcl))
            == Fold(Fold(Fold(Fold(Fold(Fold(a, FirstOption(b)), NameOptions(rcl.kind)), SelectionOptions(b, rcl.kind)),
                              PartOptions()), AccountNameOption(rcl)), RuntimeOptions(b, rcl))
  {
    var b := a.backend;
    var f, n, s, p, c := FirstOption(b), NameOptions(rcl.kind), SelectionOptions(b, rcl.kind), PartOptions(), AccountNameOption(rcl);
    FoldAppend(a, f + n + s + p + c, RuntimeOptions(b, rcl));
    FoldAppend(a, f + n + s + p, c);
    FoldAppend(a, f + n + s, p);
    FoldAppend(a, f + n, s);
    FoldAppend(a, f, n);
  }

  lemma Halves(kind: string)
    ensures SelectedHalf(kind) + OtherHalf() == AppLabels(kind)
    ensures map[] + SelectedHalf(kind) == SelectedHalf(kind)
    ensures map[] + AppLabels(kind) == AppLabels(kind)
  {
  }

  /** The metadata and the selector are done. */
  function Labelled(backend: Backend, rcl: Instance, name: string): Adapter
  {
    var a := AfterFirst(backend, name);
    Adapter(backend,
            ObjectMeta(name, 0, 0, (if backend.Deployment? then map[] else LocalOnly()) + AppLabels(rcl.kind), map[], []),
            if backend.Deployment? then SelectedHalf(rcl.kind) else map[], None,
            a.template.(labels := AppLabels(rcl.kind)))
  }

  lemma LabelBlocks(backend: Backend, rcl: Instance, name: string)
    ensures Fold(Fold(Fold(AfterFirst(backend, name), NameOptions(rcl.kind)), SelectionOptions(backend, rcl.kind)),
                 PartOptions())
            == Labelled(backend, rcl, name)
  {
    var a := AfterFirst(backend, name);
    Halves(rcl.kind);
    NameBlock(a, rcl.kind);
    var b := WithLabels(a, AppLabels(rcl.kind));
    SelectionBlock(b, rcl.kind);
    var c := WithPodLabels(if backend.Deployment? then WithSelector(b, SelectedHalf(rcl.kind)) else b, SelectedHalf(rcl.kind));
    PartBlock(c);
    var m: StringMap := map[];
    assert m + SelectedHalf(rcl.kind) + OtherHalf() == AppLabels(rcl.kind);
  }

  lemma RuntimeOfLabelled(e: Adapter, rcl: Instance)
    requires e.template.containers == AfterFirst(e.backend, "").template.containers
    ensures Fold(e, RuntimeOptions(e.backend, rcl)) == WithContainer(e, StartContainer(e.backend, rcl.kind))
  {
    RuntimeBlock(e, rcl);
    var vars, port := CommonVariables(rcl.kind), ContainerPort("metrics", 9092, "");
    assert First(e.template.containers).env + vars == vars;
    assert First(e.template.containers).ports + [port] == [port];
  }

  lemma FixedBlock(backend: Backend, rcl: Instance, name: string)
    ensures Fold(EmptyAdapter(backend, name), FixedOptions(backend, rcl)) == Start(backend, rcl, name)
  {
    FixedFolds(EmptyAdapter(backend, name), rcl);
    FirstBlock(backend, name);
    LabelBlocks(backend, rcl, name);
    var d := Labelled(backend, rcl, name);
    AccountBlock(d, rcl);
    RuntimeOfLabelled(d.(template := d.template.(serviceAccountName := DesiredAccount(rcl, []).meta.name)), rcl);
  }

  // ------------------------------------------- propagated labels and overrides

  /** The labels of an instance that its adapter and Pods inherit. */
  function Inherited(labels: StringMap): StringMap
  {
    map k | k in labels && (k == "bridges.triggermesh.io/id" || k == "flow.triggermesh.io/created-by") :: labels[k]
  }

  function ValueOf(labels: StringMap, k: string): StringMap
  {
    if k in labels then map[k := labels[k]] else map[]
  }

  function LabelOf(labels: StringMap, k: string): seq<ObjectOption>
  {
    if k in labels then [Label(k, labels[k]), PodLabel(k, labels[k])] else []
  }

  function WithBoth(a: Adapter, m: StringMap): Adapter
  {
    WithPodLabels(WithLabels(a, m), m)
  }

  lemma OnePropagated(a: Adapter, labels: StringMap, k: string)
    ensures Fold(a, LabelOf(labels, k)) == WithBoth(a, ValueOf(labels, k))
  {
    if k in labels {
      FoldTwo(a, Label(k, labels[k]), PodLabel(k, labels[k]));
      assert a.meta.labels[k := labels[k]] == a.meta.labels + map[k := labels[k]];
      assert a.template.labels[k := labels[k]] == a.template.labels + map[k := labels[k]];
    } else {
      assert a.meta.labels + map[] == a.meta.labels && a.template.labels + map[] == a.template.labels;
    }
  }

  lemma BothTwice(a: Adapter, m: StringMap, n: StringMap)
    ensures WithBoth(WithBoth(a, m), n) == WithBoth(a, m + n)
  {
    assert a.meta.labels + m + n == a.meta.labels + (m + n);
    assert a.template.labels + m + n == a.template.labels + (m + n);
  }

  lemma TwoKeys(labels: StringMap, j: string, k: string)
    ensures PropagationOptions(labels, [j, k]) == LabelOf(labels, j) + LabelOf(labels, k)
  {
    assert [j, k][..1] == [j] && [j][..0] == [];
    assert PropagationOptions(labels, [j]) == [] + LabelOf(labels, j);
    assert [] + LabelOf(labels, j) == LabelOf(labels, j);
  }

  lemma PropagationBlock(a: Adapter, labels: StringMap)
    ensures Fold(a, PropagationOptions(labels, PROPAGATED_LABELS)) == WithBoth(a, Inherited(labels))
  {
    var j, k := "bridges.triggermesh.io/id", "flow.triggermesh.io/created-by";
    TwoKeys(labels, j, k);
    FoldAppend(a, LabelOf(labels, j), LabelOf(labels, k));
    OnePropagated(a, labels, j);
    OnePropagated(WithBoth(a, ValueOf(labels, j)), labels, k);
    BothTwice(a, ValueOf(labels, j), ValueOf(labels, k));
    InheritedIsBoth(labels);
  }

  lemma InheritedIsBoth(labels: StringMap)
    ensures ValueOf(labels, "bridges.triggermesh.io/id") + ValueOf(labels, "flow.triggermesh.io/created-by") == Inherited(labels)
  {
  }

  lemma {:induction false} TolerationsBlock(a: Adapter, ts: seq<string>)
    ensures Fold(a, TolerationOptions(ts)) == a.(template := a.template.(tolerations := a.template.tolerations + ts))
    decreases |ts|
  {
    if ts == [] {
      assert a.template.tolerations + [] == a.template.tolerations;
    } else {
      var b := ApplyOption(a, Toleration(ts[0]));
      assert TolerationOptions(ts)[1..] == TolerationOptions(ts[1..]);
      TolerationsBlock(b, ts[1..]);
      assert a.template.tolerations + [ts[0]] + ts[1..] == a.template.tolerations + ts;
    }
  }

  /** The variables of the overrides, in their order. */
  function OverrideVariables(env: seq<(string, string)>): seq<EnvVar>
  {
    seq(|env|, i requires 0 <= i < |env| => EnvVar(env[i].0, env[i].1, None))
  }

  lemma {:induction false} EnvBlock(a: Adapter, env: seq<(string, string)>)
    requires |a.template.containers| == 1
    ensures var c := a.template.containers[0];
            Fold(a, EnvOptions(env)) == WithContainer(a, c.(env := c.env + OverrideVariables(env)))
    decreases |env|
  {
    var c := a.template.containers[0];
    if env == [] {
      assert c.env + OverrideVariables(env) == c.env && a.template.containers == [c];
    } else {
      var b := ApplyOption(a, Env(env[0].0, env[0].1));
      assert EnvOptions(env)[1..] == EnvOptions(env[1..]);
      EnvBlock(b, env[1..]);
      assert OverrideVariables(env) == [EnvVar(env[0].0, env[0].1, None)] + OverrideVariables(env[1..]);
      assert c.env + [EnvVar(env[0].0, env[0].1, None)] + OverrideVariables(env[1..]) == c.env + OverrideVariables(env);
    }
  }

  /** What a list says of the two resources that are taken over. */
  function CpuAndMemory(r: ResourceList): ResourceList
  {
    map k | k in r && (k == "cpu" || k == "memory") :: r[k]
  }

  lemma ResourcesAreSet(base: ResourceList, r: ResourceList)
    ensures SetResources(base, Quantity(r, CPU), Quantity(r, MEMORY)) == base + CpuAndMemory(r)
  {
  }

  lemma ResourcesBlock(a: Adapter, r: Option<Resources>)
    requires |a.template.containers| == 1
    ensures var c := a.template.containers[0];
            Fold(a, ResourceOptions(r))
            == if r.None? then a
               else WithContainer(a, c.(requests := c.requests + CpuAndMemory(r.value.requests),
                                        limits := c.limits + CpuAndMemory(r.value.limits)))
  {
    if r.Some? {
      var c, o := a.template.containers[0], ResourceOptions(r);
      FoldTwo(a, o[0], o[1]);
      assert o == [o[0], o[1]];
      ResourcesAreSet(c.requests, r.value.requests);
      ResourcesAreSet(c.limits, r.value.limits);
    }
  }

  /** The labels of a Knative Service tell whether it is local to the cluster. */
  function ShowLabels(backend: Backend, labels: StringMap, isPublic: Option<bool>): StringMap
  {
    if backend.Deployment? then labels
    else if isPublic == Some(true) then labels - {"networking.knative.dev/visibility"}
    else labels + LocalOnly()
  }

  lemma VisibilityBlock(a: Adapter, p: Option<bool>)
    ensures Fold(a, [OverrideVisibility(p)]) == a.(meta := a.meta.(labels := ShowLabels(a.backend, a.meta.labels, p)))
  {
    FoldOne(a, OverrideVisibility(p));
    assert a.meta.labels["networking.knative.dev/visibility" := "cluster-local"] == a.meta.labels + LocalOnly();
  }

  function CarriedContainer(c: Container, o: AdapterOverrides): Container
  {
    c.(env := c.env + OverrideVariables(o.env),
       requests := if o.resources.None? then c.requests else c.requests + CpuAndMemory(o.resources.value.requests),
       limits := if o.resources.None? then c.limits else c.limits + CpuAndMemory(o.resources.value.limits))
  }

  lemma HeadBlock(a: Adapter, o: AdapterOverrides)
    requires |a.template.containers| == 1
    ensures var c := a.template.containers[0];
            Fold(a, HeadOptions(o))
            == a.(meta := a.meta.(labels := ShowLabels(a.backend, a.meta.labels, o.isPublic)),
                  template := a.template.(tolerations := a.template.tolerations + o.tolerations,
                    containers := [CarriedContainer(c, o).(env := c.env)]))
  {
    var b := a.(meta := a.meta.(labels := ShowLabels(a.backend, a.meta.labels, o.isPublic)));
    FoldAppend(a, [OverrideVisibility(o.isPublic)] + ResourceOptions(o.resources), TolerationOptions(o.tolerations));
    FoldAppend(a, [OverrideVisibility(o.isPublic)], ResourceOptions(o.resources));
    VisibilityBlock(a, o.isPublic);
    ResourcesBlock(b, o.resources);
    TolerationsBlock(Fold(b, ResourceOptions(o.resources)), o.tolerations);
    assert a.template.containers == [a.template.containers[0]];
  }

  lemma MiddleBlock(a: Adapter, o: AdapterOverrides)
    requires |a.template.containers| == 1
    ensures var c := a.template.containers[0];
            Fold(a, MiddleOptions(o))
            == a.(template := a.template.(affinity := if o.affinity.Some? then o.affinity else a.template.affinity,
                                          containers := [c.(env := c.env + OverrideVariables(o.env))]))
  {
    var f := if o.affinity.Some? then [Affinity(o.affinity.value)] else [];
    FoldAppend(a, f, EnvOptions(o.env));
    if o.affinity.Some? {
      FoldOne(a, Affinity(o.affinity.value));
    }
    EnvBlock(Fold(a, f), o.env);
  }

  /** What overrides make of an adapter with one container. */
  function Carried(a: Adapter, o: AdapterOverrides): Adapter
    requires |a.template.containers| == 1
  {
    a.(meta := a.meta.(labels := ShowLabels(a.backend, a.meta.labels, o.isPublic) + o.labels,
                       annotations := a.meta.annotations + o.annotations),
       template := a.template.(
         labels := a.template.labels + o.labels, annotations := a.template.annotations + o.annotations,
         nodeSelector := a.template.nodeSelector + o.nodeSelector, tolerations := a.template.tolerations + o.tolerations,
         affinity := if o.affinity.Some? then o.affinity else a.template.affinity,
         containers := [CarriedContainer(a.template.containers[0], o)]))
  }

  lemma OverridesBlock(a: Adapter, o: AdapterOverrides)
    requires |a.template.containers| == 1
    ensures Overridden(a, o) == Carried(a, o)
  {
    HeadBlock(a, o);
    var head := Fold(a, HeadOptions(o));
    var selected := head.(template := head.template.(nodeSelector := head.template.nodeSelector + o.nodeSelector));
    MiddleBlock(selected, o);
  }

  // -------------------------------------------------------------------- tails

  function Variable(name: string, value: string): EnvVar
  {
    EnvVar(name, value, None)
  }

  lemma InstanceBlock(a: Adapter, rcl: Instance, namespace: string, sink: string)
    requires |a.template.containers| == 1
    ensures var c := a.template.containers[0];
            var n := map["app.kubernetes.io/instance" := rcl.name];
            Fold(a, InstanceOptions(a.backend, rcl, namespace, sink))
            == a.(meta := a.meta.(labels := a.meta.labels + n,
                    owners := a.meta.owners + [OwnerReference(rcl.apiVersion, rcl.kind, rcl.name, rcl.uid, Some(true))]),
                  selector := if a.backend.Deployment? then a.selector + n else a.selector,
                  template := a.template.(labels := a.template.labels + n,
                    containers := [c.(env := c.env + [Variable("NAMESPACE", namespace), Variable("NAME", rcl.name),
                                                      Variable("K_SINK", sink)])]))
  {
    var o := InstanceOptions(a.backend, rcl, namespace, sink);
    assert o == [o[0], o[1], o[2]] + [o[3], o[4], o[5]];
    FoldAppend(a, [o[0], o[1], o[2]], [o[3], o[4], o[5]]);
    FoldThree(a, o[0], o[1], o[2]);
    InstanceFirstHalf(a, rcl, namespace);
    var b := InstanceHalf(a, rcl, namespace);
    FoldThree(b, o[3], o[4], o[5]);
    InstanceSecondHalf(b, rcl, sink);
    var c := a.template.containers[0];
    assert c.env + [Variable("NAMESPACE", namespace), Variable("NAME", rcl.name)] + [Variable("K_SINK", sink)]
        == c.env + [Variable("NAMESPACE", namespace), Variable("NAME", rcl.name), Variable("K_SINK", sink)];
  }

  function InstanceHalf(a: Adapter, rcl: Instance, namespace: string): Adapter
    requires |a.template.containers| == 1
  {
    var c := a.template.containers[0];
    a.(meta := a.meta.(
         owners := a.meta.owners + [OwnerReference(rcl.apiVersion, rcl.kind, rcl.name, rcl.uid, Some(true))]),
       template := a.template.(
         containers := [c.(env := c.env + [Variable("NAMESPACE", namespace), Variable("NAME", rcl.name)])]))
  }

  lemma InstanceFirstHalf(a: Adapter, rcl: Instance, namespace: string)
    requires |a.template.containers| == 1
    ensures ApplyOption(ApplyOption(ApplyOption(a, Controller(rcl)), Env("NAMESPACE", namespace)), Env("NAME", rcl.name))
            == InstanceHalf(a, rcl, namespace)
  {
    var c := a.template.containers[0];
    assert c.env + [Variable("NAMESPACE", namespace)] + [Variable("NAME", rcl.name)]
        == c.env + [Variable("NAMESPACE", namespace), Variable("NAME", rcl.name)];
  }

  lemma OneLabel(m: StringMap, k: string, v: string)
    ensures m[k := v] == m + map[k := v]
  {
  }

  lemma InstanceSecondHalf(a: Adapter, rcl: Instance, sink: string)
    requires |a.template.containers| == 1
    ensures var c := a.template.containers[0];
            var n := map["app.kubernetes.io/instance" := rcl.name];
            var o := if a.backend.Deployment? then Selector("app.kubernetes.io/instance", rcl.name)
                     else PodLabel("app.kubernetes.io/instance", rcl.name);
            ApplyOption(ApplyOption(ApplyOption(a, Label("app.kubernetes.io/instance", rcl.name)), o), Env("K_SINK", sink))
            == a.(meta := a.meta.(labels := a.meta.labels + n),
                  selector := if a.backend.Deployment? then a.selector + n else a.selector,
                  template := a.template.(labels := a.template.labels + n,
                    containers := [c.(env := c.env + [Variable("K_SINK", sink)])]))
  {
    MarkInstance(a, "app.kubernetes.io/instance", rcl.name, sink);
  }

  lemma MarkInstance(a: Adapter, k: string, v: string, sink: string)
    requires |a.template.containers| == 1
    ensures var c := a.template.containers[0];
            var o := if a.backend.Deployment? then Selector(k, v) else PodLabel(k, v);
            ApplyOption(ApplyOption(ApplyOption(a, Label(k, v)), o), Env("K_SINK", sink))
            == a.(meta := a.meta.(labels := a.meta.labels + map[k := v]),
                  selector := if a.backend.Deployment? then a.selector + map[k := v] else a.selector,
                  template := a.template.(labels := a.template.labels + map[k := v],
                    containers := [c.(env := c.env + [Variable("K_SINK", sink)])]))
  {
    OneLabel(a.meta.labels, k, v);
    OneLabel(a.template.labels, k, v);
    OneLabel(a.selector, k, v);
  }

  lemma SharedBlock(a: Adapter, namespace: string)
    requires |a.template.containers| == 1
    ensures var c := a.template.containers[0];
            Fold(a, SharedOptions(namespace))
            == WithContainer(a, c.(env := c.env + [Variable("NAMESPACE", namespace), Variable("SYSTEM_NAMESPACE", namespace)]))
  {
    var o, c := SharedOptions(namespace), a.template.containers[0];
    assert o == [o[0], o[1]];
    FoldTwo(a, o[0], o[1]);
    assert c.env + [Variable("NAMESPACE", namespace)] + [Variable("SYSTEM_NAMESPACE", namespace)]
        == c.env + [Variable("NAMESPACE", namespace), Variable("SYSTEM_NAMESPACE", namespace)];
  }

  // ------------------------------------------------------- the whole adapter

  /** What an instance without overrides asks for. */
  function Asked(rcl: Instance): AdapterOverrides
  {
    if rcl.overrides.Some? then rcl.overrides.value
    else AdapterOverrides(None, None, [], map[], None, [], map[], map[])
  }

  /** What all adapters of an instance have in common. */
  function Common(backend: Backend, rcl: Instance, name: string): Adapter
  {
    var o, inherited := Asked(rcl), Inherited(rcl.labels);
    Adapter(backend,
            ObjectMeta(name, 0, 0,
                       ShowLabels(backend, (if backend.Deployment? then map[] else LocalOnly()) + AppLabels(rcl.kind) + inherited,
                                  o.isPublic) + o.labels,
                       o.annotations, []),
            if backend.Deployment? then SelectedHalf(rcl.kind) else map[], None,
            PodTemplate(AppLabels(rcl.kind) + inherited + o.labels, o.annotations, DesiredAccount(rcl, []).meta.name,
                        o.nodeSelector, o.tolerations, o.affinity,
                        [CarriedContainer(StartContainer(backend, rcl.kind), o)]))
  }

  lemma LocalStaysLocal(kind: string, m: StringMap)
    requires "networking.knative.dev/visibility" !in m
    ensures LocalOnly() + AppLabels(kind) + m + LocalOnly() == LocalOnly() + AppLabels(kind) + m
  {
    var k := "networking.knative.dev/visibility";
    assert k !in AppLabels(kind) by {
      assert k[0] == 'n';
    }
  }

  lemma CommonIs(backend: Backend, rcl: Instance, name: string)
    ensures WithOverrides(Fold(EmptyAdapter(backend, name), CommonOptions(backend, rcl)), rcl.overrides)
            == Common(backend, rcl, name)
  {
    FoldAppend(EmptyAdapter(backend, name), FixedOptions(backend, rcl), PropagationOptions(rcl.labels, PROPAGATED_LABELS));
    FixedBlock(backend, rcl, name);
    PropagationBlock(Start(backend, rcl, name), rcl.labels);
    var a := WithBoth(Start(backend, rcl, name), Inherited(rcl.labels));
    var o := Asked(rcl);
    if rcl.overrides.Some? {
      OverridesBlock(a, o);
      CarriedIsCommon(backend, rcl, name);
    } else {
      NothingAskedFor(backend, rcl, name);
    }
  }

  lemma CarriedIsCommon(backend: Backend, rcl: Instance, name: string)
    requires rcl.overrides.Some?
    ensures Carried(WithBoth(Start(backend, rcl, name), Inherited(rcl.labels)), rcl.overrides.value) == Common(backend, rcl, name)
  {
    var o := rcl.overrides.value;
    var m: StringMap, t: seq<string> := map[], [];
    assert m + o.annotations == o.annotations && m + o.nodeSelector == o.nodeSelector && t + o.tolerations == o.tolerations;
  }

  lemma NothingAskedFor(backend: Backend, rcl: Instance, name: string)
    requires rcl.overrides.None?
    ensures WithBoth(Start(backend, rcl, name), Inherited(rcl.labels)) == Common(backend, rcl, name)
  {
    var a := WithBoth(Start(backend, rcl, name), Inherited(rcl.labels));
    var k := "networking.knative.dev/visibility";
    assert k !in Inherited(rcl.labels) by {
      assert k[0] == 'n';
    }
    LocalStaysLocal(rcl.kind, Inherited(rcl.labels));
    var m: StringMap := map[];
    assert a.meta.labels + m == a.meta.labels && a.template.labels + m == a.template.labels;
    var e: seq<EnvVar> := OverrideVariables([]);
    assert e == [];
    assert CommonVariables(rcl.kind) + e == CommonVariables(rcl.kind);
  }

  /** The container of an adapter without options of the component's own. */
  ghost predicate IsContainerOf(c: Container, backend: Backend, rcl: Instance, own: seq<EnvVar>)
  {
    var o := Asked(rcl);
    && c.name == "adapter" && c.image == "" && c.readinessProbe.None?
    && c.terminationMessagePolicy == (if backend.Deployment? then "FallbackToLogsOnError" else "")
    && c.ports == (if backend.Deployment? then [ContainerPort("metrics", 9092, "")] else [])
    && c.env == [EnvVar("K_COMPONENT", Text.ToLower(rcl.kind), None), EnvVar("K_SINK_TIMEOUT", "30", None),
                 EnvVar("METRICS_PROMETHEUS_PORT", "9092", None)] + OverrideVariables(o.env) + own
    && c.requests == (if o.resources.None? then map[] else CpuAndMemory(o.resources.value.requests))
    && c.limits == (if o.resources.None? then map[] else CpuAndMemory(o.resources.value.limits))
  }

  /** The Pods' other settings are the overrides' own. */
  ghost predicate IsPodOf(t: PodTemplate, rcl: Instance, own: StringMap)
  {
    var o := Asked(rcl);
    && t.tolerations == o.tolerations && t.nodeSelector == o.nodeSelector && t.affinity == o.affinity
    && t.annotations == o.annotations && t.serviceAccountName == DesiredAccount(rcl, []).meta.name
    && t.labels == AppLabels(rcl.kind) + Inherited(rcl.labels) + o.labels + own
  }

  ghost predicate IsMetaOf(m: ObjectMeta, backend: Backend, rcl: Instance, own: StringMap)
  {
    var o := Asked(rcl);
    var base := AppLabels(rcl.kind) + Inherited(rcl.labels);
    && m.annotations == o.annotations && m.uid == 0 && m.version == 0
    && m.labels == (if backend.Deployment? || o.isPublic == Some(true) then base
                    else base + map["networking.knative.dev/visibility" := "cluster-local"]) + o.labels + own
  }

  lemma ShownLabels(backend: Backend, rcl: Instance)
    ensures var base := AppLabels(rcl.kind) + Inherited(rcl.labels);
            ShowLabels(backend, (if backend.Deployment? then map[] else LocalOnly()) + AppLabels(rcl.kind) + Inherited(rcl.labels),
                       Asked(rcl).isPublic)
            == if backend.Deployment? || Asked(rcl).isPublic == Some(true) then base
               else base + map["networking.knative.dev/visibility" := "cluster-local"]
  {
    var k, m := "networking.knative.dev/visibility", Inherited(rcl.labels);
    var none: StringMap := map[];
    assert k !in m && k !in AppLabels(rcl.kind) by {
      assert k[0] == 'n';
    }
    assert none + AppLabels(rcl.kind) == AppLabels(rcl.kind);
    assert LocalOnly() + AppLabels(rcl.kind) + m - {k} == AppLabels(rcl.kind) + m;
    assert LocalOnly() + AppLabels(rcl.kind) + m + LocalOnly() == AppLabels(rcl.kind) + m + LocalOnly();
  }

  lemma CommonContainer(backend: Backend, rcl: Instance)
    ensures var c := CarriedContainer(StartContainer(backend, rcl.kind), Asked(rcl));
            c.name == "" && IsContainerOf(c.(name := "adapter"), backend, rcl, [])
  {
    var o, c := Asked(rcl), StartContainer(backend, rcl.kind);
    var e: seq<EnvVar> := [];
    assert c.env + OverrideVariables(o.env) + e == c.env + OverrideVariables(o.env);
    if o.resources.Some? {
      assert c.requests + CpuAndMemory(o.resources.value.requests) == CpuAndMemory(o.resources.value.requests);
      assert c.limits + CpuAndMemory(o.resources.value.limits) == CpuAndMemory(o.resources.value.limits);
    }
  }

  lemma CommonMeta(backend: Backend, rcl: Instance, name: string)
    ensures IsMetaOf(Common(backend, rcl, name).meta, backend, rcl, map[])
    ensures IsPodOf(Common(backend, rcl, name).template, rcl, map[])
  {
    ShownLabels(backend, rcl);
    var o := Asked(rcl);
    var m: StringMap := map[];
    assert AppLabels(rcl.kind) + Inherited(rcl.labels) + o.labels + m == AppLabels(rcl.kind) + Inherited(rcl.labels) + o.labels;
    assert Common(backend, rcl, name).meta.labels + m == Common(backend, rcl, name).meta.labels;
  }

  lemma NamedContainer(a: Adapter, c: Container)
    requires a.template.containers == [c] && c.name == ""
    ensures NameContainer(a) == WithContainer(a, c.(name := "adapter"))
  {
  }

  lemma InstanceBuilt(backend: Backend, rcl: Instance, namespace: string, sink: string, name: string)
    ensures var a := Built(backend, rcl, name, InstanceOptions(backend, rcl, namespace, sink));
            var n := map["app.kubernetes.io/instance" := rcl.name];
            && a.backend == backend && a.meta.name == name && a.replicas.None?
            && a.meta.owners == [OwnerReference(rcl.apiVersion, rcl.kind, rcl.name, rcl.uid, Some(true))]
            && a.selector == (if backend.Deployment? then SelectedHalf(rcl.kind) + n else map[])
            && IsMetaOf(a.meta, backend, rcl, n) && IsPodOf(a.template, rcl, n)
            && |a.template.containers| == 1
            && IsContainerOf(a.template.containers[0], backend, rcl,
                             [EnvVar("NAMESPACE", namespace, None), EnvVar("NAME", rcl.name, None), EnvVar("K_SINK", sink, None)])
  {
    var a := Common(backend, rcl, name);
    var own := [Variable("NAMESPACE", namespace), Variable("NAME", rcl.name), Variable("K_SINK", sink)];
    CommonIs(backend, rcl, name);
    CommonContainer(backend, rcl);
    CommonMeta(backend, rcl, name);
    InstanceBlock(a, rcl, namespace, sink);
    var folded := Fold(a, InstanceOptions(backend, rcl, namespace, sink));
    NamedContainer(folded, folded.template.containers[0]);
    MoreVariables(a.template.containers[0].(name := "adapter"), backend, rcl, own);
    MoreLabels(a, backend, rcl, map["app.kubernetes.io/instance" := rcl.name]);
  }

  lemma InstanceName(kind: string, name: string)
    ensures ChildName(ComponentName(kind) + "-", name) == Text.ToLower(kind) + "-" + name
  {
  }

  /** What a single-tenant builder makes of an instance, field by field. */
  lemma InstanceAdapterIs(backend: Backend, rcl: Instance, namespace: string, sink: string)
    ensures var a := InstanceAdapter(backend, rcl, namespace, sink, []);
            var n := map["app.kubernetes.io/instance" := rcl.name];
            && a.backend == backend && a.meta.name == Text.ToLower(rcl.kind) + "-" + rcl.name && a.replicas.None?
            && a.meta.owners == [OwnerReference(rcl.apiVersion, rcl.kind, rcl.name, rcl.uid, Some(true))]
            && a.selector == (if backend.Deployment? then SelectedHalf(rcl.kind) + n else map[])
            && IsMetaOf(a.meta, backend, rcl, n) && IsPodOf(a.template, rcl, n)
            && |a.template.containers| == 1
            && IsContainerOf(a.template.containers[0], backend, rcl,
                             [EnvVar("NAMESPACE", namespace, None), EnvVar("NAME", rcl.name, None), EnvVar("K_SINK", sink, None)])
  {
    var name, tail := ChildName(ComponentName(rcl.kind) + "-", rcl.name), InstanceOptions(backend, rcl, namespace, sink);
    InstanceName(rcl.kind, rcl.name);
    InstanceBuilt(backend, rcl, namespace, sink, name);
    assert tail + [] == tail;
    assert InstanceAdapter(backend, rcl, namespace, sink, []) == Built(backend, rcl, name, tail);
  }

  lemma MoreVariables(c: Container, backend: Backend, rcl: Instance, own: seq<EnvVar>)
    requires IsContainerOf(c, backend, rcl, [])
    ensures IsContainerOf(c.(env := c.env + own), backend, rcl, own)
  {
  }

  lemma MoreLabels(a: Adapter, backend: Backend, rcl: Instance, own: StringMap)
    requires IsMetaOf(a.meta, backend, rcl, map[]) && IsPodOf(a.template, rcl, map[])
    ensures IsMetaOf(a.meta.(labels := a.meta.labels + own), backend, rcl, own)
    ensures IsPodOf(a.template.(labels := a.template.labels + own), rcl, own)
  {
    var m: StringMap := map[];
    forall x: StringMap
      ensures x + m + own == x + own
    {
    }
  }

  lemma SharedBuilt(backend: Backend, rcl: Instance, namespace: string, name: string)
    ensures var a := Built(backend, rcl, name, SharedOptions(namespace));
            && a.backend == backend && a.meta.name == name && a.replicas.None?
            && a.meta.owners == [] && a.selector == (if backend.Deployment? then SelectedHalf(rcl.kind) else map[])
            && IsMetaOf(a.meta, backend, rcl, map[]) && IsPodOf(a.template, rcl, map[])
            && |a.template.containers| == 1
            && IsContainerOf(a.template.containers[0], backend, rcl,
                             [EnvVar("NAMESPACE", namespace, None), EnvVar("SYSTEM_NAMESPACE", namespace, None)])
  {
    var a := Common(backend, rcl, name);
    CommonIs(backend, rcl, name);
    CommonContainer(backend, rcl);
    CommonMeta(backend, rcl, name);
    SharedBlock(a, namespace);
    var own := [Variable("NAMESPACE", namespace), Variable("SYSTEM_NAMESPACE", namespace)];
    var folded := Fold(a, SharedOptions(namespace));
    NamedContainer(folded, folded.template.containers[0]);
    MoreVariables(a.template.containers[0].(name := "adapter"), backend, rcl, own);
  }

  /** The same for the builder of the adapter that all instances share. */
  lemma SharedAdapterIs(backend: Backend, rcl: Instance, namespace: string)
    ensures var a := SharedAdapter(backend, rcl, namespace, []);
            && a.backend == backend && a.meta.name == Text.ToLower(rcl.kind) + "-adapter" && a.replicas.None?
            && a.meta.owners == [] && a.selector == (if backend.Deployment? then SelectedHalf(rcl.kind) else map[])
            && IsMetaOf(a.meta, backend, rcl, map[]) && IsPodOf(a.template, rcl, map[])
            && |a.template.containers| == 1
            && IsContainerOf(a.template.containers[0], backend, rcl,
                             [EnvVar("NAMESPACE", namespace, None), EnvVar("SYSTEM_NAMESPACE", namespace, None)])
  {
    var name := MTAdapterObjectName(rcl.kind);
    SharedNameText(rcl.kind);
    SharedBuilt(backend, rcl, namespace, name);
    assert SharedOptions(namespace) + [] == SharedOptions(namespace);
    assert SharedAdapter(backend, rcl, namespace, []) == Built(backend, rcl, name, SharedOptions(namespace));
  }

  // ------------------------------------------------ the component's own options

  ghost predicate AddsNoContainer(options: seq<ObjectOption>)
  {
    forall o :: o in options ==> !o.AddContainer?
  }

  ghost predicate HasOneUnnamed(a: Adapter)
  {
    |a.template.containers| == 1 && a.template.containers[0].name == ""
  }

  lemma {:induction false} StaysOneUnnamed(a: Adapter, options: seq<ObjectOption>)
    requires HasOneUnnamed(a) && AddsNoContainer(options)
    ensures HasOneUnnamed(Fold(a, options))
    decreases |options|
  {
    if options != [] {
      assert options[0] in options;
      StaysOneUnnamed(ApplyOption(a, options[0]), options[1..]);
    }
  }

  lemma BuiltStaysOneUnnamed(backend: Backend, rcl: Instance, name: string, tail: seq<ObjectOption>)
    requires AddsNoContainer(tail)
    ensures HasOneUnnamed(Fold(WithOverrides(Fold(EmptyAdapter(backend, name), CommonOptions(backend, rcl)), rcl.overrides), tail))
  {
    CommonIs(backend, rcl, name);
    CommonContainer(backend, rcl);
    StaysOneUnnamed(Common(backend, rcl, name), tail);
  }

  /** The last option of a builder acts on what the others have made. */
  lemma LastOptionActs(backend: Backend, rcl: Instance, name: string, tail: seq<ObjectOption>, o: ObjectOption)
    requires AddsNoContainer(tail) && !o.AddContainer?
    ensures Built(backend, rcl, name, tail + [o]) == ApplyOption(Built(backend, rcl, name, tail), o)
    ensures |Built(backend, rcl, name, tail).template.containers| == 1
  {
    var base := WithOverrides(Fold(EmptyAdapter(backend, name), CommonOptions(backend, rcl)), rcl.overrides);
    BuiltStaysOneUnnamed(backend, rcl, name, tail);
    FoldAppend(base, tail, [o]);
    FoldOne(Fold(base, tail), o);
  }

  /** What the option writes to the container. */
  ghost predicate WritesContainer(backend: Backend, o: ObjectOption, c: Container, d: Container)
  {
    match o
    case Env(k, v) => d == c.(env := c.env + [EnvVar(k, v, None)])
    case EnvFromSecret(k, s) => d == c.(env := c.env + [EnvVar(k, "", Some(s))])
    case EnvVars(vars) => d == c.(env := c.env + vars)
    case Port(n, p) => d == c.(ports := (if backend.Deployment? then c.ports else []) + [ContainerPort(n, p, "")])
    case Image(i) => d == c.(image := i)
    case HttpProbe(path, port) =>
      d == c.(readinessProbe := Some(Probe(path, if backend.Deployment? then port else "", 0, 0, 0, 0, 0)))
    case Requests(cpu, mem) => d == c.(requests := d.requests) && SetsQuantities(c.requests, cpu, mem, d.requests)
    case Limits(cpu, mem) => d == c.(limits := d.limits) && SetsQuantities(c.limits, cpu, mem, d.limits)
    case TerminationErrorToLogs => d == c.(terminationMessagePolicy := "FallbackToLogsOnError")
    case _ => d == c
  }

  ghost predicate SetsQuantities(before: ResourceList, cpu: Option<nat>, mem: Option<nat>, after: ResourceList)
  {
    forall k :: (if k == "cpu" && cpu.Some? then k in after && after[k] == cpu.value
                 else if k == "memory" && mem.Some? then k in after && after[k] == mem.value
                 else (k in after <==> k in before) && (k in before ==> after[k] == before[k]))
  }

  ghost predicate WritesPod(o: ObjectOption, t: PodTemplate, u: PodTemplate)
  {
    && u.labels == (if o.PodLabel? || o.Selector? then t.labels[o.key := o.value] else t.labels)
    && u.annotations == (if o.PodAnnotation? then t.annotations[o.key := o.value] else t.annotations)
    && u.serviceAccountName == (if o.AccountName? then o.name else t.serviceAccountName)
    && u.nodeSelector == (if o.NodeSelector? then t.nodeSelector[o.key := o.value] else t.nodeSelector)
    && u.tolerations == (if o.Toleration? then t.tolerations + [o.toleration] else t.tolerations)
    && u.affinity == (if o.Affinity? then Some(o.affinity) else t.affinity)
  }

  ghost predicate WritesMeta(backend: Backend, o: ObjectOption, m: ObjectMeta, n: ObjectMeta)
  {
    var key := "networking.knative.dev/visibility";
    var hides := o.VisibilityClusterLocal? || (o.OverrideVisibility? && backend.KnativeService? && o.isPublic != Some(true));
    var shows := o.VisibilityPublic? || (o.OverrideVisibility? && backend.KnativeService? && o.isPublic == Some(true));
    && n == m.(labels := n.labels, annotations := n.annotations, owners := n.owners)
    && n.labels == (if o.Label? then m.labels[o.key := o.value]
                    else if hides then m.labels[key := "cluster-local"]
                    else if shows then m.labels - {key} else m.labels)
    && n.annotations == (if o.Annotation? then m.annotations[o.key := o.value] else m.annotations)
    && n.owners == (if o.Controller? then
                      m.owners + [OwnerReference(o.instance.apiVersion, o.instance.kind, o.instance.name, o.instance.uid, Some(true))]
                    else m.owners)
  }

  lemma OptionWritesContainer(a: Adapter, o: ObjectOption)
    requires |a.template.containers| == 1 && !o.AddContainer?
    ensures |ApplyOption(a, o).template.containers| == 1
    ensures WritesContainer(a.backend, o, a.template.containers[0], ApplyOption(a, o).template.containers[0])
  {
    if o.Requests? || o.Limits? {
      assert CPU != MEMORY;
    }
  }

  lemma OptionWritesPod(a: Adapter, o: ObjectOption)
    ensures WritesPod(o, a.template, ApplyOption(a, o).template)
  {
  }

  lemma OptionWritesMeta(a: Adapter, o: ObjectOption)
    ensures WritesMeta(a.backend, o, a.meta, ApplyOption(a, o).meta)
  {
  }

  /** What one more option of the component's own adds to a built adapter, of
      either kind, and that it adds nothing else. */
  lemma OneMoreOption(backend: Backend, rcl: Instance, namespace: string, sink: string, extra: seq<ObjectOption>, o: ObjectOption)
    requires AddsNoContainer(extra) && !o.AddContainer?
    ensures IsOneMore(o, InstanceAdapter(backend, rcl, namespace, sink, extra),
                      InstanceAdapter(backend, rcl, namespace, sink, extra + [o]))
    ensures IsOneMore(o, SharedAdapter(backend, rcl, namespace, extra), SharedAdapter(backend, rcl, namespace, extra + [o]))
  {
    var x, y := InstanceOptions(backend, rcl, namespace, sink), SharedOptions(namespace);
    OneMoreInTail(backend, rcl, ChildName(ComponentName(rcl.kind) + "-", rcl.name), x, extra, o);
    OneMoreInTail(backend, rcl, MTAdapterObjectName(rcl.kind), y, extra, o);
  }

  lemma OneMoreInTail(backend: Backend, rcl: Instance, name: string, own: seq<ObjectOption>, extra: seq<ObjectOption>,
                      o: ObjectOption)
    requires AddsNoContainer(own) && AddsNoContainer(extra) && !o.AddContainer?
    ensures IsOneMore(o, Built(backend, rcl, name, own + extra), Built(backend, rcl, name, own + (extra + [o])))
  {
    assert own + (extra + [o]) == (own + extra) + [o];
    LastOptionActs(backend, rcl, name, own + extra, o);
    OptionIsOneMore(Built(backend, rcl, name, own + extra), o);
  }

  ghost predicate IsOneMore(o: ObjectOption, a: Adapter, b: Adapter)
  {
    && |a.template.containers| == |b.template.containers| == 1
    && WritesContainer(a.backend, o, a.template.containers[0], b.template.containers[0])
    && WritesPod(o, a.template, b.template) && WritesMeta(a.backend, o, a.meta, b.meta)
    && b.backend == a.backend && b.replicas == a.replicas
    && b.selector == if o.Selector? then a.selector[o.key := o.value] else a.selector
  }

  lemma OptionIsOneMore(a: Adapter, o: ObjectOption)
    requires |a.template.containers| == 1 && !o.AddContainer?
    ensures IsOneMore(o, a, ApplyOption(a, o))
  {
    OptionWritesContainer(a, o);
    OptionWritesPod(a, o);
    OptionWritesMeta(a, o);
  }

  lemma AddsToOne(a: Adapter, c: Container)
    requires HasOneUnnamed(a)
    ensures |NameContainer(a).template.containers| == 1
    ensures NameContainer(ApplyOption(a, AddContainer(c))).template.containers
            == if a.backend.Deployment? then [NameContainer(a).template.containers[0].(name := ""), c]
               else [if c.name == "" then c.(name := "adapter") else c]
  {
    assert a.template.containers == [a.template.containers[0]];
  }

  /** A container that is added stands beside the first one of a Deployment, whose
      name is left empty then, and replaces the one of a Knative Service. */
  lemma AddedContainer(backend: Backend, rcl: Instance, name: string, tail: seq<ObjectOption>, c: Container)
    requires AddsNoContainer(tail)
    ensures |Built(backend, rcl, name, tail).template.containers| == 1
    ensures var first := Built(backend, rcl, name, tail).template.containers[0];
            Built(backend, rcl, name, tail + [AddContainer(c)]).template.containers
            == if backend.Deployment? then [first.(name := ""), c]
               else [if c.name == "" then c.(name := "adapter") else c]
  {
    var base := WithOverrides(Fold(EmptyAdapter(backend, name), CommonOptions(backend, rcl)), rcl.overrides);
    CommonIs(backend, rcl, name);
    BuiltStaysOneUnnamed(backend, rcl, name, tail);
    FoldAppend(base, tail, [AddContainer(c)]);
    FoldOne(Fold(base, tail), AddContainer(c));
    AdapterAspects.IdentityIsKept(base, tail);
    AddsToOne(Fold(base, tail), c);
  }
}
