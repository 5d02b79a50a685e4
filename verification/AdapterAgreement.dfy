/** What the builders produce agrees with what the reconciler looks up, with
    what a Deployment selects, and with the account that RBAC objects bind. */
module AdapterAgreement {
  import opened Wrappers
  import opened Objects
  import opened Components
  import opened AdapterLookup
  import opened AdapterBuilder
  import opened AdapterOptions
  import opened AdapterAspects

  // --------------------------------------------------- reading a built object

  /** Overrides of labels win over the common options. */
  function BaseValue(backend: Backend, rcl: Instance, x: Aspect): Option<string>
  {
    if (x.OfLabel? || x.OfPodLabel?) && rcl.overrides.Some? && x.key in rcl.overrides.value.labels
    then Some(rcl.overrides.value.labels[x.key])
    else FixedValue(backend, rcl, x)
  }

  lemma OverridesWrite(o: AdapterOverrides, x: Aspect)
    ensures LastWrite(HeadOptions(o), x).None? && LastWrite(MiddleOptions(o), x).None?
  {
    NoWrites(HeadOptions(o), x);
    NoWrites(MiddleOptions(o), x);
  }

  lemma OverriddenReads(a: Adapter, o: AdapterOverrides, x: Aspect)
    requires IsPlain(x)
    ensures Reads(Overridden(a, o), x)
            == if (x.OfLabel? || x.OfPodLabel?) && x.key in o.labels then Some(o.labels[x.key]) else Reads(a, x)
  {
    OverridesWrite(o, x);
    LastWriteDecides(a, HeadOptions(o), x);
    var head := Fold(a, HeadOptions(o));
    LastWriteDecides(head.(template := head.template.(nodeSelector := head.template.nodeSelector + o.nodeSelector)),
                     MiddleOptions(o), x);
  }

  lemma AppIsPlain(x: Aspect)
    requires IsApp(x)
    ensures IsPlain(x)
  {
    AppLabelsAreOwnFamily();
  }

  lemma EmptyReads(backend: Backend, name: string, x: Aspect)
    ensures Reads(EmptyAdapter(backend, name), x) == if x.OfAccount? then Some("") else None
  {
  }

  lemma BaseReads(backend: Backend, rcl: Instance, name: string, x: Aspect)
    requires IsApp(x)
    ensures Reads(WithOverrides(Fold(EmptyAdapter(backend, name), CommonOptions(backend, rcl)), rcl.overrides), x)
            == BaseValue(backend, rcl, x)
  {
    AppIsPlain(x);
    CommonWrites(backend, rcl, x);
    EmptyReads(backend, name, x);
    LastWriteDecides(EmptyAdapter(backend, name), CommonOptions(backend, rcl), x);
    if rcl.overrides.Some? {
      OverriddenReads(Fold(EmptyAdapter(backend, name), CommonOptions(backend, rcl)), rcl.overrides.value, x);
    }
  }

  lemma BuiltReads(backend: Backend, rcl: Instance, name: string, tail: seq<ObjectOption>, x: Aspect)
    requires IsApp(x)
    ensures Reads(Built(backend, rcl, name, tail), x) == Or(LastWrite(tail, x), BaseValue(backend, rcl, x))
  {
    AppIsPlain(x);
    BaseReads(backend, rcl, name, x);
    LastWriteDecides(WithOverrides(Fold(EmptyAdapter(backend, name), CommonOptions(backend, rcl)), rcl.overrides), tail, x);
  }

  // ------------------------------------------------------------------- tails

  /** What a single-tenant builder's own options make of each aspect. */
  function InstanceValue(backend: Backend, rcl: Instance, x: Aspect): Option<string>
  {
    if !x.OfAccount? && x.key == APP_INSTANCE_LABEL && (x.OfSelector? ==> backend.Deployment?)
    then Some(rcl.name) else None
  }

  lemma InstanceWrites(backend: Backend, rcl: Instance, namespace: string, sink: string, x: Aspect)
    ensures LastWrite(InstanceOptions(backend, rcl, namespace, sink), x) == InstanceValue(backend, rcl, x)
  {
    var o := InstanceOptions(backend, rcl, namespace, sink);
    assert o == [o[0], o[1], o[2]] + [o[3], o[4]] + [o[5]];
    LastWriteAppend([o[0], o[1], o[2]] + [o[3], o[4]], [o[5]], x);
    LastWriteAppend([o[0], o[1], o[2]], [o[3], o[4]], x);
    NoWrites([o[0], o[1], o[2]], x);
    LastOfTwo(o[3], o[4], x);
    LastOfOne(o[5], x);
  }

  ghost predicate AllLeave(options: seq<ObjectOption>, x: Aspect)
  {
    forall o :: o in options ==> Writes(o, x).None?
  }

  lemma InstanceReads(backend: Backend, rcl: Instance, namespace: string, sink: string, extra: seq<ObjectOption>, x: Aspect)
    requires IsApp(x) && AllLeave(extra, x)
    ensures Reads(InstanceAdapter(backend, rcl, namespace, sink, extra), x)
            == Or(InstanceValue(backend, rcl, x), BaseValue(backend, rcl, x))
  {
    BuiltReads(backend, rcl, ChildName(ComponentName(rcl.kind) + "-", rcl.name),
               InstanceOptions(backend, rcl, namespace, sink) + extra, x);
    LastWriteAppend(InstanceOptions(backend, rcl, namespace, sink), extra, x);
    InstanceWrites(backend, rcl, namespace, sink, x);
    NoWrites(extra, x);
  }

  lemma SharedWrites(namespace: string, x: Aspect)
    ensures LastWrite(SharedOptions(namespace), x).None?
  {
    NoWrites(SharedOptions(namespace), x);
  }

  lemma SharedReads(backend: Backend, rcl: Instance, namespace: string, extra: seq<ObjectOption>, x: Aspect)
    requires IsApp(x) && AllLeave(extra, x)
    ensures Reads(SharedAdapter(backend, rcl, namespace, extra), x) == BaseValue(backend, rcl, x)
  {
    BuiltReads(backend, rcl, MTAdapterObjectName(rcl.kind), SharedOptions(namespace) + extra, x);
    LastWriteAppend(SharedOptions(namespace), extra, x);
    SharedWrites(namespace, x);
    NoWrites(extra, x);
  }

  // ------------------------------------------------------------------ owners

  ghost predicate NoController(options: seq<ObjectOption>)
  {
    forall o :: o in options ==> !o.Controller?
  }

  lemma NoControllerAppend(first: seq<ObjectOption>, second: seq<ObjectOption>)
    requires NoController(first) && NoController(second)
    ensures NoController(first + second)
  {
  }

  lemma {:induction false} PropagationHasNoController(parent: StringMap, keys: seq<string>)
    ensures NoController(PropagationOptions(parent, keys))
  {
    if keys != [] {
      PropagationHasNoController(parent, keys[..|keys| - 1]);
    }
  }

  lemma CommonHasNoController(backend: Backend, rcl: Instance)
    ensures NoController(CommonOptions(backend, rcl))
  {
    var f, n, s, p, c, r := FirstOption(backend), NameOptions(rcl.kind), SelectionOptions(backend, rcl.kind),
      PartOptions(), AccountNameOption(rcl), RuntimeOptions(backend, rcl);
    NoControllerAppend(f, n);
    NoControllerAppend(f + n, s);
    NoControllerAppend(f + n + s, p);
    NoControllerAppend(f + n + s + p, c);
    NoControllerAppend(f + n + s + p + c, r);
    PropagationHasNoController(rcl.labels, PROPAGATED_LABELS);
    NoControllerAppend(FixedOptions(backend, rcl), PropagationOptions(rcl.labels, PROPAGATED_LABELS));
  }

  lemma OverriddenOwners(a: Adapter, o: AdapterOverrides)
    ensures Overridden(a, o).meta.owners == a.meta.owners
  {
    OwnersAreKept(a, HeadOptions(o));
    var head := Fold(a, HeadOptions(o));
    OwnersAreKept(head.(template := head.template.(nodeSelector := head.template.nodeSelector + o.nodeSelector)),
                  MiddleOptions(o));
  }

  lemma BaseHasNoOwner(backend: Backend, rcl: Instance, name: string)
    ensures WithOverrides(Fold(EmptyAdapter(backend, name), CommonOptions(backend, rcl)), rcl.overrides).meta.owners == []
  {
    CommonHasNoController(backend, rcl);
    OwnersAreKept(EmptyAdapter(backend, name), CommonOptions(backend, rcl));
    if rcl.overrides.Some? {
      OverriddenOwners(Fold(EmptyAdapter(backend, name), CommonOptions(backend, rcl)), rcl.overrides.value);
    }
  }

  lemma TailSetsController(a: Adapter, rcl: Instance, tail: seq<ObjectOption>)
    requires tail != [] && tail[0] == Controller(rcl) && NoController(tail[1..])
    ensures Fold(a, tail).meta.owners == a.meta.owners + [InstanceRef(rcl, true)]
  {
    OwnersAreKept(ApplyOption(a, tail[0]), tail[1..]);
  }

  lemma InstanceAdapterOwner(backend: Backend, rcl: Instance, namespace: string, sink: string, extra: seq<ObjectOption>)
    requires NoController(extra)
    ensures InstanceAdapter(backend, rcl, namespace, sink, extra).meta.owners == [InstanceRef(rcl, true)]
  {
    var name, o := ChildName(ComponentName(rcl.kind) + "-", rcl.name), InstanceOptions(backend, rcl, namespace, sink);
    BaseHasNoOwner(backend, rcl, name);
    assert NoController(o[1..]);
    NoControllerAppend(o[1..], extra);
    assert (o + extra)[1..] == o[1..] + extra;
    TailSetsController(WithOverrides(Fold(EmptyAdapter(backend, name), CommonOptions(backend, rcl)), rcl.overrides),
                       rcl, o + extra);
  }

  // ---------------------------------------------- builder and lookup agree

  /** The overrides do not give a common label another value. */
  predicate OverridesAgree(rcl: Instance)
  {
    rcl.overrides.Some? ==>
      forall k <- CommonLabels(rcl.kind) :: k in rcl.overrides.value.labels ==>
        rcl.overrides.value.labels[k] == CommonLabels(rcl.kind)[k]
  }

  const LOOKUP_KEYS :=
    {APP_NAME_LABEL, APP_INSTANCE_LABEL, APP_COMPONENT_LABEL, APP_PART_OF_LABEL, APP_MANAGED_BY_LABEL}

  /** Extra options that leave the looked-up labels and the owner alone. */
  ghost predicate LeaveLookup(extra: seq<ObjectOption>)
  {
    NoController(extra) && forall k <- LOOKUP_KEYS :: AllLeave(extra, OfLabel(k))
  }

  lemma LookupKeys(rcl: Instance)
    ensures LookupLabels(rcl).Keys <= LOOKUP_KEYS && APP_INSTANCE_LABEL !in CommonLabels(rcl.kind)
    ensures rcl.multiTenant ==> LookupLabels(rcl) == CommonLabels(rcl.kind)
    ensures !rcl.multiTenant ==> LookupLabels(rcl) == CommonLabels(rcl.kind)[APP_INSTANCE_LABEL := rcl.name]
  {
    CommonLabelKeys(rcl.kind);
    LabelKeysDiffer();
  }

  lemma LookupKeysAreApp(k: string)
    requires k in LOOKUP_KEYS
    ensures IsAppLabel(k)
  {
    AppLabelsAreOwnFamily();
  }

  lemma HasLabelsByReads(a: Adapter, selector: StringMap)
    ensures HasLabels(a.meta.labels, selector) <==> forall k <- selector :: Reads(a, OfLabel(k)) == Some(selector[k])
  {
  }

  lemma AgreeByValues(backend: Backend, rcl: Instance)
    ensures OverridesAgree(rcl) <==>
            forall k <- CommonLabels(rcl.kind) :: BaseValue(backend, rcl, OfLabel(k)) == Some(CommonLabels(rcl.kind)[k])
  {
  }

  lemma ControllerOfOne(r: OwnerReference)
    requires r.controller == Some(true)
    ensures ControllerOf([r]) == Some(r)
  {
  }

  /** What a built adapter's looked-up label is. */
  function LookedUp(backend: Backend, rcl: Instance, k: string): Option<string>
  {
    if k == APP_INSTANCE_LABEL && !rcl.multiTenant then Some(rcl.name) else BaseValue(backend, rcl, OfLabel(k))
  }

  lemma LabelsMatchExactlyWhenAgreed(backend: Backend, rcl: Instance, a: Adapter)
    requires forall k <- LookupLabels(rcl) :: Reads(a, OfLabel(k)) == LookedUp(backend, rcl, k)
    ensures HasLabels(a.meta.labels, LookupLabels(rcl)) <==> OverridesAgree(rcl)
  {
    LookupKeys(rcl);
    AgreeByValues(backend, rcl);
    HasLabelsByReads(a, LookupLabels(rcl));
  }

  /** A built adapter is found again by its own instance exactly when the
      overrides leave the common labels as they are. The instance label does
      not matter: it is written after the overrides. */
  lemma InstanceAdapterIsFound(backend: Backend, rcl: Instance, namespace: string, sink: string, extra: seq<ObjectOption>)
    requires !rcl.multiTenant && LeaveLookup(extra)
    ensures Accepts(rcl, rcl.uid, InstanceAdapter(backend, rcl, namespace, sink, extra)) <==> OverridesAgree(rcl)
  {
    var a := InstanceAdapter(backend, rcl, namespace, sink, extra);
    LookupKeys(rcl);
    forall k | k in LookupLabels(rcl)
      ensures Reads(a, OfLabel(k)) == LookedUp(backend, rcl, k)
    {
      LookupKeysAreApp(k);
      InstanceReads(backend, rcl, namespace, sink, extra, OfLabel(k));
    }
    LabelsMatchExactlyWhenAgreed(backend, rcl, a);
    InstanceAdapterOwner(backend, rcl, namespace, sink, extra);
    ControllerOfOne(InstanceRef(rcl, true));
  }

  /** The same for the adapter that all instances of a kind share, once the
      account has become its owner. */
  lemma SharedAdapterIsFound(backend: Backend, rcl: Instance, namespace: string, extra: seq<ObjectOption>, sa: ServiceAccount)
    requires rcl.multiTenant && LeaveLookup(extra)
    ensures Accepts(rcl, sa.meta.uid, OwnByServiceAccount(SharedAdapter(backend, rcl, namespace, extra), sa))
            <==> OverridesAgree(rcl)
  {
    var a := SharedAdapter(backend, rcl, namespace, extra);
    LookupKeys(rcl);
    forall k | k in LookupLabels(rcl)
      ensures Reads(a, OfLabel(k)) == LookedUp(backend, rcl, k)
    {
      LookupKeysAreApp(k);
      SharedReads(backend, rcl, namespace, extra, OfLabel(k));
    }
    LabelsMatchExactlyWhenAgreed(backend, rcl, OwnByServiceAccount(a, sa));
    ControllerOfOne(AccountRef(sa));
  }

  /** Every looked-up label is there, whatever its value. */
  lemma InstanceAdapterHasKeys(backend: Backend, rcl: Instance, namespace: string, sink: string, extra: seq<ObjectOption>)
    requires !rcl.multiTenant && LeaveLookup(extra)
    ensures LookupLabels(rcl).Keys <= InstanceAdapter(backend, rcl, namespace, sink, extra).meta.labels.Keys
  {
    var a := InstanceAdapter(backend, rcl, namespace, sink, extra);
    LookupKeys(rcl);
    forall k | k in LookupLabels(rcl)
      ensures k in a.meta.labels
    {
      LookupKeysAreApp(k);
      InstanceReads(backend, rcl, namespace, sink, extra, OfLabel(k));
      assert Reads(a, OfLabel(k)).Some?;
    }
  }

  lemma SharedAdapterHasKeys(backend: Backend, rcl: Instance, namespace: string, extra: seq<ObjectOption>)
    requires rcl.multiTenant && LeaveLookup(extra)
    ensures LookupLabels(rcl).Keys <= SharedAdapter(backend, rcl, namespace, extra).meta.labels.Keys
  {
    var a := SharedAdapter(backend, rcl, namespace, extra);
    LookupKeys(rcl);
    forall k | k in LookupLabels(rcl)
      ensures k in a.meta.labels
    {
      LookupKeysAreApp(k);
      SharedReads(backend, rcl, namespace, extra, OfLabel(k));
      assert Reads(a, OfLabel(k)).Some?;
    }
  }

  // ---------------------------------------------------------------- identity

  lemma OverriddenIdentity(a: Adapter, o: AdapterOverrides)
    ensures SameIdentity(a, Overridden(a, o))
  {
    IdentityIsKept(a, HeadOptions(o));
    var head := Fold(a, HeadOptions(o));
    IdentityIsKept(head.(template := head.template.(nodeSelector := head.template.nodeSelector + o.nodeSelector)),
                   MiddleOptions(o));
  }

  /** A built object has the backend and name it was built for, and nothing that
      the server assigns. */
  lemma BuiltIdentity(backend: Backend, rcl: Instance, name: string, tail: seq<ObjectOption>)
    ensures SameIdentity(EmptyAdapter(backend, name), Built(backend, rcl, name, tail))
  {
    var a := EmptyAdapter(backend, name);
    var common := Fold(a, CommonOptions(backend, rcl));
    IdentityIsKept(a, CommonOptions(backend, rcl));
    if rcl.overrides.Some? {
      OverriddenIdentity(common, rcl.overrides.value);
    }
    IdentityIsKept(WithOverrides(common, rcl.overrides), tail);
  }

  // ----------------------------------------------- selectors and pod labels

  /** Extra options that leave the selector and the selected labels alone. */
  ghost predicate LeavePods(extra: seq<ObjectOption>)
  {
    && (forall o :: o in extra ==> !o.Selector?)
    && (forall k <- LOOKUP_KEYS :: AllLeave(extra, OfPodLabel(k)))
  }

  /** The overrides do not change a label that the Deployment selects by. */
  predicate OverridesSelectable(rcl: Instance)
  {
    rcl.overrides.Some? ==>
      forall k <- SelectedLabels(rcl.kind) :: k in rcl.overrides.value.labels ==>
        rcl.overrides.value.labels[k] == SelectedLabels(rcl.kind)[k]
  }

  lemma SelectorOfInstance(rcl: Instance, namespace: string, sink: string, extra: seq<ObjectOption>)
    requires LeavePods(extra)
    ensures InstanceAdapter(Deployment, rcl, namespace, sink, extra).selector
            == SelectedLabels(rcl.kind)[APP_INSTANCE_LABEL := rcl.name]
  {
    var a := InstanceAdapter(Deployment, rcl, namespace, sink, extra);
    var m := SelectedLabels(rcl.kind)[APP_INSTANCE_LABEL := rcl.name];
    forall k: string
      ensures At(a.selector, k) == At(m, k)
    {
      InstanceReads(Deployment, rcl, namespace, sink, extra, OfSelector(k));
    }
    SameAtSameMap(a.selector, m);
  }

  lemma SameAtSameMap(a: StringMap, b: StringMap)
    requires forall k: string :: At(a, k) == At(b, k)
    ensures a == b
  {
    forall k: string
      ensures (k in a <==> k in b) && (k in a ==> a[k] == b[k])
    {
      assert At(a, k) == At(b, k);
    }
  }

  lemma PodLabelOfInstance(rcl: Instance, namespace: string, sink: string, extra: seq<ObjectOption>, k: string)
    requires LeavePods(extra) && k in LOOKUP_KEYS
    ensures At(InstanceAdapter(Deployment, rcl, namespace, sink, extra).template.labels, k)
            == if k == APP_INSTANCE_LABEL then Some(rcl.name) else BaseValue(Deployment, rcl, OfPodLabel(k))
  {
    LookupKeysAreApp(k);
    InstanceReads(Deployment, rcl, namespace, sink, extra, OfPodLabel(k));
  }

  /** Which labels a three-key selector asks for. */
  lemma SelectsByThree(labels: StringMap, kind: string, name: string)
    ensures HasLabels(labels, SelectedLabels(kind)[APP_INSTANCE_LABEL := name]) <==>
            && At(labels, APP_NAME_LABEL) == Some(SelectedLabels(kind)[APP_NAME_LABEL])
            && At(labels, APP_COMPONENT_LABEL) == Some(SelectedLabels(kind)[APP_COMPONENT_LABEL])
            && At(labels, APP_INSTANCE_LABEL) == Some(name)
  {
    LabelKeysDiffer();
    var m := SelectedLabels(kind)[APP_INSTANCE_LABEL := name];
    assert m.Keys == {APP_NAME_LABEL, APP_COMPONENT_LABEL, APP_INSTANCE_LABEL};
  }

  lemma SelectableByTwo(rcl: Instance)
    ensures OverridesSelectable(rcl) <==>
            && BaseValue(Deployment, rcl, OfPodLabel(APP_NAME_LABEL)) == Some(SelectedLabels(rcl.kind)[APP_NAME_LABEL])
            && BaseValue(Deployment, rcl, OfPodLabel(APP_COMPONENT_LABEL)) == Some(SelectedLabels(rcl.kind)[APP_COMPONENT_LABEL])
  {
    LabelKeysDiffer();
    assert SelectedLabels(rcl.kind).Keys == {APP_NAME_LABEL, APP_COMPONENT_LABEL};
  }

  /** A built Deployment selects its own Pods exactly when the overrides leave
      the name and component labels as they are. */
  lemma DeploymentSelectsItsPods(rcl: Instance, namespace: string, sink: string, extra: seq<ObjectOption>)
    requires LeavePods(extra)
    ensures var a := InstanceAdapter(Deployment, rcl, namespace, sink, extra);
            HasLabels(a.template.labels, a.selector) <==> OverridesSelectable(rcl)
  {
    SelectorOfInstance(rcl, namespace, sink, extra);
    PodLabelOfInstance(rcl, namespace, sink, extra, APP_NAME_LABEL);
    PodLabelOfInstance(rcl, namespace, sink, extra, APP_COMPONENT_LABEL);
    PodLabelOfInstance(rcl, namespace, sink, extra, APP_INSTANCE_LABEL);
    LabelKeysDiffer();
    SelectsByThree(InstanceAdapter(Deployment, rcl, namespace, sink, extra).template.labels, rcl.kind, rcl.name);
    SelectableByTwo(rcl);
  }

  lemma SelectorOfShared(rcl: Instance, namespace: string, extra: seq<ObjectOption>)
    requires LeavePods(extra)
    ensures SharedAdapter(Deployment, rcl, namespace, extra).selector == SelectedLabels(rcl.kind)
  {
    var a := SharedAdapter(Deployment, rcl, namespace, extra);
    forall k: string
      ensures At(a.selector, k) == At(SelectedLabels(rcl.kind), k)
    {
      SharedReads(Deployment, rcl, namespace, extra, OfSelector(k));
    }
    SameAtSameMap(a.selector, SelectedLabels(rcl.kind));
  }

  /** Which labels a two-key selector asks for. */
  lemma SelectsByTwo(labels: StringMap, kind: string)
    ensures HasLabels(labels, SelectedLabels(kind)) <==>
            && At(labels, APP_NAME_LABEL) == Some(SelectedLabels(kind)[APP_NAME_LABEL])
            && At(labels, APP_COMPONENT_LABEL) == Some(SelectedLabels(kind)[APP_COMPONENT_LABEL])
  {
    LabelKeysDiffer();
    assert SelectedLabels(kind).Keys == {APP_NAME_LABEL, APP_COMPONENT_LABEL};
  }

  /** The same for the Deployment that all instances of a kind share, which
      does not select by instance. */
  lemma SharedDeploymentSelectsItsPods(rcl: Instance, namespace: string, extra: seq<ObjectOption>)
    requires LeavePods(extra)
    ensures var a := SharedAdapter(Deployment, rcl, namespace, extra);
            HasLabels(a.template.labels, a.selector) <==> OverridesSelectable(rcl)
  {
    SelectorOfShared(rcl, namespace, extra);
    LookupKeysAreApp(APP_NAME_LABEL);
    LookupKeysAreApp(APP_COMPONENT_LABEL);
    SharedReads(Deployment, rcl, namespace, extra, OfPodLabel(APP_NAME_LABEL));
    SharedReads(Deployment, rcl, namespace, extra, OfPodLabel(APP_COMPONENT_LABEL));
    SelectsByTwo(SharedAdapter(Deployment, rcl, namespace, extra).template.labels, rcl.kind);
    SelectableByTwo(rcl);
  }

  // ----------------------------------------------------- the pods' account

  /** An adapter's Pod runs as the account that the RBAC reconciler wants for
      the instance, whichever owners that account gets. */
  lemma PodRunsAsReconciledAccount(backend: Backend, rcl: Instance, namespace: string, sink: string,
                                   extra: seq<ObjectOption>, owners: seq<Instance>)
    requires AllLeave(extra, OfAccount)
    ensures InstanceAdapter(backend, rcl, namespace, sink, extra).template.serviceAccountName
            == DesiredAccount(rcl, owners).meta.name
    ensures SharedAdapter(backend, rcl, namespace, extra).template.serviceAccountName
            == DesiredAccount(rcl, owners).meta.name
  {
    InstanceReads(backend, rcl, namespace, sink, extra, OfAccount);
    SharedReads(backend, rcl, namespace, extra, OfAccount);
    AccountNameIgnoresOwners(rcl, [], owners);
  }
}
