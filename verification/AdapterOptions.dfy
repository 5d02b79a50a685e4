/** The option lists of the four adapter builders. */
module AdapterOptions {
  import opened Wrappers
  import opened Objects
  import opened Components
  import opened AdapterBuilder

  const BRIDGE_LABEL := "bridges.triggermesh.io/id"
  const FLOW_LABEL := "flow.triggermesh.io/created-by"
  const PROPAGATED_LABELS := [BRIDGE_LABEL, FLOW_LABEL]

  // ------------------------------------------------------------- option lists

  function PropagationOptions(parent: StringMap, keys: seq<string>): seq<ObjectOption>
  {
    if keys == [] then []
    else
      var k := keys[|keys| - 1];
      PropagationOptions(parent, keys[..|keys| - 1])
      + (if k in parent then [Label(k, parent[k]), PodLabel(k, parent[k])] else [])
  }

  function NameOptions(kind: string): seq<ObjectOption>
  {
    [Label(APP_NAME_LABEL, ComponentName(kind)), Label(APP_COMPONENT_LABEL, COMPONENT_ADAPTER),
     Label(APP_PART_OF_LABEL, PART_OF), Label(APP_MANAGED_BY_LABEL, MANAGED_BY)]
  }

  /** The labels that a Deployment selects its Pods by. */
  function SelectionOptions(backend: Backend, kind: string): seq<ObjectOption>
  {
    if backend.Deployment? then
      [Selector(APP_NAME_LABEL, ComponentName(kind)), Selector(APP_COMPONENT_LABEL, COMPONENT_ADAPTER)]
    else
      [PodLabel(APP_NAME_LABEL, ComponentName(kind)), PodLabel(APP_COMPONENT_LABEL, COMPONENT_ADAPTER)]
  }

  function PartOptions(): seq<ObjectOption>
  {
    [PodLabel(APP_PART_OF_LABEL, PART_OF), PodLabel(APP_MANAGED_BY_LABEL, MANAGED_BY)]
  }

  function AccountNameOption(rcl: Instance): seq<ObjectOption>
  {
    [AccountName(DesiredAccount(rcl, []).meta.name)]
  }

  function RuntimeOptions(backend: Backend, rcl: Instance): seq<ObjectOption>
  {
    [Env("K_COMPONENT", ComponentName(rcl.kind)), Env("K_SINK_TIMEOUT", "30"), Env("METRICS_PROMETHEUS_PORT", "9092")]
    + (if backend.Deployment? then [Port(METRICS_PORT_NAME, METRICS_PORT)] else [])
  }

  function FirstOption(backend: Backend): seq<ObjectOption>
  {
    [if backend.Deployment? then TerminationErrorToLogs else VisibilityClusterLocal]
  }

  function FixedOptions(backend: Backend, rcl: Instance): seq<ObjectOption>
  {
    FirstOption(backend) + NameOptions(rcl.kind) + SelectionOptions(backend, rcl.kind) + PartOptions() + AccountNameOption(rcl)
    + RuntimeOptions(backend, rcl)
  }

  /** The common options, up to the overrides. */
  function CommonOptions(backend: Backend, rcl: Instance): seq<ObjectOption>
  {
    FixedOptions(backend, rcl) + PropagationOptions(rcl.labels, PROPAGATED_LABELS)
  }

  /** What a single-tenant builder adds after the common options. */
  function InstanceOptions(backend: Backend, rcl: Instance, namespace: string, sink: string): seq<ObjectOption>
  {
    [Controller(rcl), Env("NAMESPACE", namespace), Env("NAME", rcl.name), Label(APP_INSTANCE_LABEL, rcl.name),
     if backend.Deployment? then Selector(APP_INSTANCE_LABEL, rcl.name) else PodLabel(APP_INSTANCE_LABEL, rcl.name),
     Env("K_SINK", sink)]
  }

  function SharedOptions(namespace: string): seq<ObjectOption>
  {
    [Env("NAMESPACE", namespace), Env("SYSTEM_NAMESPACE", namespace)]
  }

  function WithOverrides(a: Adapter, o: Option<AdapterOverrides>): Adapter
  {
    if o.None? then a else Overridden(a, o.value)
  }

  /** The adapter that results from a builder, without any order of iteration. */
  function Built(backend: Backend, rcl: Instance, name: string, tail: seq<ObjectOption>): Adapter
  {
    NameContainer(Fold(WithOverrides(Fold(EmptyAdapter(backend, name), CommonOptions(backend, rcl)), rcl.overrides), tail))
  }

  function InstanceAdapter(backend: Backend, rcl: Instance, namespace: string, sink: string, extra: seq<ObjectOption>): Adapter
  {
    Built(backend, rcl, ChildName(ComponentName(rcl.kind) + "-", rcl.name),
          InstanceOptions(backend, rcl, namespace, sink) + extra)
  }

  /** The adapter of all instances of a kind, which its account owns. */
  function SharedAdapter(backend: Backend, rcl: Instance, namespace: string, extra: seq<ObjectOption>): Adapter
  {
    Built(backend, rcl, MTAdapterObjectName(rcl.kind), SharedOptions(namespace) + extra)
  }

  function OwnByServiceAccount(a: Adapter, sa: ServiceAccount): Adapter
  {
    a.(meta := a.meta.(owners := [AccountRef(sa)]))
  }

  // ----------------------------------------------------------------- builders

  ghost predicate FoldsToCommon(opts: seq<ObjectOption>, backend: Backend, rcl: Instance)
  {
    forall a: Adapter :: Fold(a, opts) == WithOverrides(Fold(a, CommonOptions(backend, rcl)), rcl.overrides)
  }

  /** commonAdapterDeploymentOptions and commonAdapterKnServiceOptions. */
  method CommonAdapterOptions(backend: Backend, rcl: Instance) returns (opts: seq<ObjectOption>)
    ensures FoldsToCommon(opts, backend, rcl)
  {
    opts := FixedOptions(backend, rcl);
    ghost var fixed := opts;
    for i := 0 to |PROPAGATED_LABELS|
      invariant opts == fixed + PropagationOptions(rcl.labels, PROPAGATED_LABELS[..i])
    {
      var key := PROPAGATED_LABELS[i];
      assert PROPAGATED_LABELS[..i + 1] == PROPAGATED_LABELS[..i] + [key];
      if key in rcl.labels {
        opts := opts + [Label(key, rcl.labels[key])];
        opts := opts + [PodLabel(key, rcl.labels[key])];
      }
    }
    assert PROPAGATED_LABELS[..|PROPAGATED_LABELS|] == PROPAGATED_LABELS;
    assert opts == CommonOptions(backend, rcl);
    if rcl.overrides.Some? {
      var more, v := AdapterOverrideOptions(rcl.overrides.value);
      opts := opts + more;
      forall a: Adapter
        ensures Fold(a, opts) == Overridden(Fold(a, CommonOptions(backend, rcl)), rcl.overrides.value)
      {
        FoldAppend(a, CommonOptions(backend, rcl), more);
        OverridesIgnoreOrder(Fold(a, CommonOptions(backend, rcl)), rcl.overrides.value, v);
      }
    }
  }

  /** NewAdapterDeployment and NewAdapterKnService: in whatever order the maps
      of the overrides are visited, the built object is the same. */
  method NewAdapter(backend: Backend, rcl: Instance, namespace: string, sink: string, extra: seq<ObjectOption>)
    returns (d: AdapterObject)
    ensures fresh(d) && d.Value() == InstanceAdapter(backend, rcl, namespace, sink, extra)
  {
    var name := ChildName(ComponentName(rcl.kind) + "-", rcl.name);
    var common := CommonAdapterOptions(backend, rcl);
    var tail := InstanceOptions(backend, rcl, namespace, sink) + extra;
    d := NewAdapterObject(backend, name, common + tail);
    FoldAppend(EmptyAdapter(backend, name), common, tail);
  }

  /** NewMTAdapterDeployment and NewMTAdapterKnService. */
  method NewMTAdapter(backend: Backend, rcl: Instance, namespace: string, extra: seq<ObjectOption>)
    returns (d: AdapterObject)
    ensures fresh(d) && d.Value() == SharedAdapter(backend, rcl, namespace, extra)
  {
    var name := MTAdapterObjectName(rcl.kind);
    var common := CommonAdapterOptions(backend, rcl);
    var tail := SharedOptions(namespace) + extra;
    d := NewAdapterObject(backend, name, common + tail);
    FoldAppend(EmptyAdapter(backend, name), common, tail);
  }
}
