/** The semantic comparison of a desired with a current object: a derivative
    order in which whatever the desired object leaves unset is ignored. */
module Semantic {
  import opened Wrappers
  import opened Objects

  const VISIBILITY_LABEL := "networking.knative.dev/visibility"

  predicate TextBelow(a: string, b: string)
  {
    a == "" || a == b
  }

  predicate NumberBelow(a: int, b: int)
  {
    a == 0 || a == b
  }

  predicate OptionBelow<T(==)>(a: Option<T>, b: Option<T>)
  {
    a.None? || a == b
  }

  predicate PlainMapBelow(a: StringMap, b: StringMap)
  {
    |a| <= |b| && forall k <- a :: k in b && TextBelow(a[k], b[k])
  }

  function Visibility(m: StringMap): string
  {
    if VISIBILITY_LABEL in m then m[VISIBILITY_LABEL] else ""
  }

  /** Labels, annotations and selectors; the visibility label can be removed
      by a reconciler, so its absence is compared as well. */
  predicate MapBelow(a: StringMap, b: StringMap)
  {
    Visibility(a) == Visibility(b) && PlainMapBelow(a, b)
  }

  predicate TextsBelow(a: seq<string>, b: seq<string>)
  {
    |a| <= |b| && forall i :: 0 <= i < |a| ==> TextBelow(a[i], b[i])
  }

  predicate OwnerBelow(a: OwnerReference, b: OwnerReference)
  {
    && TextBelow(a.apiVersion, b.apiVersion)
    && TextBelow(a.kind, b.kind)
    && TextBelow(a.name, b.name)
    && NumberBelow(a.uid, b.uid)
    && OptionBelow(a.controller, b.controller)
  }

  predicate MetaBelow(a: ObjectMeta, b: ObjectMeta)
  {
    && TextBelow(a.name, b.name)
    && NumberBelow(a.uid, b.uid)
    && NumberBelow(a.version, b.version)
    && MapBelow(a.labels, b.labels)
    && MapBelow(a.annotations, b.annotations)
    && |a.owners| <= |b.owners|
    && forall i :: 0 <= i < |a.owners| ==> OwnerBelow(a.owners[i], b.owners[i])
  }

  predicate QuantitiesBelow(a: ResourceList, b: ResourceList)
  {
    |a| <= |b| && forall k <- a :: k in b && NumberBelow(a[k], b[k])
  }

  /** A variable that is specified is compared exactly, even when empty. */
  predicate EnvVarBelow(a: EnvVar, b: EnvVar)
  {
    a.name == b.name && a.value == b.value
    && (a.valueFrom.None?
        || (b.valueFrom.Some?
            && TextBelow(a.valueFrom.value.name, b.valueFrom.value.name)
            && TextBelow(a.valueFrom.value.key, b.valueFrom.value.key)))
  }

  predicate PortBelow(a: ContainerPort, b: ContainerPort)
  {
    TextBelow(a.name, b.name) && a.port == b.port && TextBelow(a.protocol, b.protocol)
  }

  predicate ProbeBelow(a: Option<Probe>, b: Option<Probe>)
  {
    a.None?
    || (b.Some?
        && NumberBelow(a.value.initialDelaySeconds, b.value.initialDelaySeconds)
        && NumberBelow(a.value.timeoutSeconds, b.value.timeoutSeconds)
        && NumberBelow(a.value.periodSeconds, b.value.periodSeconds)
        && NumberBelow(a.value.successThreshold, b.value.successThreshold)
        && NumberBelow(a.value.failureThreshold, b.value.failureThreshold)
        && TextBelow(a.value.path, b.value.path)
        && a.value.port == b.value.port)
  }

  predicate ContainerBelow(a: Container, b: Container)
  {
    && TextBelow(a.name, b.name)
    && TextBelow(a.image, b.image)
    && TextBelow(a.terminationMessagePolicy, b.terminationMessagePolicy)
    && |a.env| <= |b.env|
    && (forall i :: 0 <= i < |a.env| ==> EnvVarBelow(a.env[i], b.env[i]))
    && |a.ports| <= |b.ports|
    && (forall i :: 0 <= i < |a.ports| ==> PortBelow(a.ports[i], b.ports[i]))
    && QuantitiesBelow(a.requests, b.requests)
    && QuantitiesBelow(a.limits, b.limits)
    && ProbeBelow(a.readinessProbe, b.readinessProbe)
  }

  predicate TemplateBelow(a: PodTemplate, b: PodTemplate)
  {
    && MapBelow(a.labels, b.labels)
    && MapBelow(a.annotations, b.annotations)
    && TextBelow(a.serviceAccountName, b.serviceAccountName)
    && MapBelow(a.nodeSelector, b.nodeSelector)
    && TextsBelow(a.tolerations, b.tolerations)
    && OptionBelow(a.affinity, b.affinity)
    && |a.containers| <= |b.containers|
    && forall i :: 0 <= i < |a.containers| ==> ContainerBelow(a.containers[i], b.containers[i])
  }

  /** deploymentEqual and knServiceEqual; of a Knative Service's spec only the
      template is compared. */
  predicate AdapterEqual(desired: Adapter, current: Adapter)
  {
    && desired.backend == current.backend
    && MetaBelow(desired.meta, current.meta)
    && TemplateBelow(desired.template, current.template)
    && (desired.backend.Deployment? ==>
          MapBelow(desired.selector, current.selector) && OptionBelow(desired.replicas, current.replicas))
  }

  /** serviceAccountEqual. */
  predicate AccountEqual(desired: ServiceAccount, current: ServiceAccount)
  {
    && MetaBelow(desired.meta, current.meta)
    && TextsBelow(desired.secrets, current.secrets)
    && TextsBelow(desired.imagePullSecrets, current.imagePullSecrets)
  }

  // ------------------------------------------------------------ server defaults

  function FillText(a: string, d: string): string
  {
    if a == "" then d else a
  }

  function FillNumber(a: int, d: int): int
  {
    if a == 0 then d else a
  }

  function FillOption<T>(a: Option<T>, d: Option<T>): Option<T>
  {
    if a.None? then d else a
  }

  function FillPort(a: ContainerPort, d: ContainerPort): ContainerPort
  {
    ContainerPort(FillText(a.name, d.name), a.port, FillText(a.protocol, d.protocol))
  }

  function FillPorts(a: seq<ContainerPort>, d: seq<ContainerPort>): (r: seq<ContainerPort>)
  {
    seq(|a|, i requires 0 <= i < |a| => if i < |d| then FillPort(a[i], d[i]) else a[i])
  }

  function FillProbe(a: Option<Probe>, d: Option<Probe>): Option<Probe>
  {
    if a.None? || d.None? then FillOption(a, d)
    else Some(Probe(FillText(a.value.path, d.value.path), a.value.port,
                    FillNumber(a.value.initialDelaySeconds, d.value.initialDelaySeconds),
                    FillNumber(a.value.timeoutSeconds, d.value.timeoutSeconds),
                    FillNumber(a.value.periodSeconds, d.value.periodSeconds),
                    FillNumber(a.value.successThreshold, d.value.successThreshold),
                    FillNumber(a.value.failureThreshold, d.value.failureThreshold)))
  }

  function FillContainer(a: Container, d: Container): Container
  {
    Container(FillText(a.name, d.name), FillText(a.image, d.image),
              FillText(a.terminationMessagePolicy, d.terminationMessagePolicy),
              a.env + d.env, FillPorts(a.ports, d.ports), d.requests + a.requests, d.limits + a.limits,
              FillProbe(a.readinessProbe, d.readinessProbe))
  }

  /** Containers that the defaults have beyond the desired ones are appended,
      as an injected sidecar would be. */
  function FillContainers(a: seq<Container>, d: seq<Container>): (r: seq<Container>)
  {
    seq(|a|, i requires 0 <= i < |a| => if i < |d| then FillContainer(a[i], d[i]) else a[i])
    + (if |a| < |d| then d[|a|..] else [])
  }

  function FillTemplate(a: PodTemplate, d: PodTemplate): PodTemplate
  {
    PodTemplate(d.labels + a.labels, d.annotations + a.annotations,
                FillText(a.serviceAccountName, d.serviceAccountName), d.nodeSelector + a.nodeSelector,
                a.tolerations + d.tolerations, FillOption(a.affinity, d.affinity),
                FillContainers(a.containers, d.containers))
  }

  /** What the server stores for `a` when it takes every field that `a` leaves
      unset from `d`. The owners are stored as written. */
  function Fill(a: Adapter, d: Adapter): Adapter
  {
    Adapter(a.backend,
            a.meta.(labels := d.meta.labels + a.meta.labels, annotations := d.meta.annotations + a.meta.annotations),
            d.selector + a.selector, FillOption(a.replicas, d.replicas), FillTemplate(a.template, d.template))
  }

  /** No default adds a visibility to a map that does not state one. */
  predicate VisibilityUntouched(a: StringMap, d: StringMap)
  {
    VISIBILITY_LABEL !in a ==> Visibility(d) == ""
  }

  predicate DefaultsLeaveVisibility(a: Adapter, d: Adapter)
  {
    && VisibilityUntouched(a.meta.labels, d.meta.labels)
    && VisibilityUntouched(a.meta.annotations, d.meta.annotations)
    && VisibilityUntouched(a.template.labels, d.template.labels)
    && VisibilityUntouched(a.template.annotations, d.template.annotations)
    && VisibilityUntouched(a.template.nodeSelector, d.template.nodeSelector)
    && (a.backend.Deployment? ==> VisibilityUntouched(a.selector, d.selector))
  }

  lemma MapSizes<K, V>(d: map<K, V>, a: map<K, V>)
    ensures |a| <= |d + a|
  {
    assert (d + a).Keys == d.Keys + a.Keys;
    SubsetSize(a.Keys, (d + a).Keys);
  }

  lemma {:induction false} SubsetSize<T>(a: set<T>, b: set<T>)
    requires a <= b
    ensures |a| <= |b|
  {
    if a != {} {
      var x :| x in a;
      SubsetSize(a - {x}, b - {x});
    }
  }

  lemma FilledMapIsAbove(a: StringMap, d: StringMap)
    ensures MapBelow(a, d + a) <==> VisibilityUntouched(a, d)
  {
    MapSizes(d, a);
  }

  lemma FilledContainerIsAbove(a: Container, d: Container)
    ensures ContainerBelow(a, FillContainer(a, d))
  {
    MapSizes(d.requests, a.requests);
    MapSizes(d.limits, a.limits);
    FilledEnvIsAbove(a.env, d.env);
    FilledPortsAreAbove(a.ports, d.ports);
  }

  lemma FilledEnvIsAbove(a: seq<EnvVar>, d: seq<EnvVar>)
    ensures forall i :: 0 <= i < |a| ==> EnvVarBelow(a[i], (a + d)[i])
  {
  }

  lemma FilledPortsAreAbove(a: seq<ContainerPort>, d: seq<ContainerPort>)
    ensures forall i :: 0 <= i < |a| ==> PortBelow(a[i], FillPorts(a, d)[i])
  {
  }

  lemma ContainerBelowItself(a: Container)
    ensures ContainerBelow(a, a)
  {
  }

  lemma FilledContainersAreAbove(a: seq<Container>, d: seq<Container>)
    ensures |a| <= |FillContainers(a, d)|
    ensures forall i :: 0 <= i < |a| ==> ContainerBelow(a[i], FillContainers(a, d)[i])
  {
    forall i | 0 <= i < |a|
      ensures ContainerBelow(a[i], FillContainers(a, d)[i])
    {
      if i < |d| {
        FilledContainerIsAbove(a[i], d[i]);
      } else {
        ContainerBelowItself(a[i]);
      }
    }
  }

  lemma FilledTemplateIsAbove(a: PodTemplate, d: PodTemplate)
    ensures TemplateBelow(a, FillTemplate(a, d)) <==>
            VisibilityUntouched(a.labels, d.labels) && VisibilityUntouched(a.annotations, d.annotations)
            && VisibilityUntouched(a.nodeSelector, d.nodeSelector)
  {
    FilledMapIsAbove(a.labels, d.labels);
    FilledMapIsAbove(a.annotations, d.annotations);
    FilledMapIsAbove(a.nodeSelector, d.nodeSelector);
    FilledContainersAreAbove(a.containers, d.containers);
    assert TextsBelow(a.tolerations, a.tolerations + d.tolerations);
  }

  lemma UnstampedMetaBelow(a: ObjectMeta, labels: StringMap, annotations: StringMap, uid: nat, version: nat)
    requires a.uid == 0 && a.version == 0
    ensures MetaBelow(a, a.(labels := labels, annotations := annotations, uid := uid, version := version))
            <==> MapBelow(a.labels, labels) && MapBelow(a.annotations, annotations)
  {
  }

  /** An adapter equals the stored copy of itself exactly when the defaults
      that the server filled in did not add a visibility. */
  lemma StoredCopyIsEqual(a: Adapter, d: Adapter, uid: nat, version: nat)
    requires a.meta.uid == 0 && a.meta.version == 0
    ensures var stored := Fill(a, d);
            AdapterEqual(a, stored.(meta := stored.meta.(uid := uid, version := version)))
            <==> DefaultsLeaveVisibility(a, d)
  {
    FilledTemplateIsAbove(a.template, d.template);
    FilledMapIsAbove(a.selector, d.selector);
    FilledMapIsAbove(a.meta.labels, d.meta.labels);
    FilledMapIsAbove(a.meta.annotations, d.meta.annotations);
    UnstampedMetaBelow(a.meta, d.meta.labels + a.meta.labels, d.meta.annotations + a.meta.annotations, uid, version);
  }

  // ------------------------------------------------------------ what it implies

  /** Equality of accounts means that every desired owner with a UID is held. */
  lemma EqualAccountsShareOwners(desired: ServiceAccount, current: ServiceAccount, r: OwnerReference)
    requires AccountEqual(desired, current) && r in desired.meta.owners
    requires r.apiVersion != "" && r.kind != "" && r.name != "" && r.uid != 0 && r.controller.Some?
    ensures r in current.meta.owners
  {
    var i :| 0 <= i < |desired.meta.owners| && desired.meta.owners[i] == r;
    assert OwnerBelow(r, current.meta.owners[i]);
  }

  // ------------------------------------------------------------ field by field

  /** Every text that `a` has under a key is under that key of `b`. */
  ghost predicate MapCarries(a: StringMap, b: StringMap)
  {
    forall k <- a :: k in b && (a[k] != "" ==> b[k] == a[k])
  }

  ghost predicate QuantitiesCarry(a: ResourceList, b: ResourceList)
  {
    forall k <- a :: k in b && (a[k] != 0 ==> b[k] == a[k])
  }

  ghost predicate VariableCarries(a: EnvVar, b: EnvVar)
  {
    && b.name == a.name && b.value == a.value
    && (a.valueFrom.Some? ==>
          && b.valueFrom.Some?
          && (a.valueFrom.value.name != "" ==> b.valueFrom.value.name == a.valueFrom.value.name)
          && (a.valueFrom.value.key != "" ==> b.valueFrom.value.key == a.valueFrom.value.key))
  }

  ghost predicate PortCarries(a: ContainerPort, b: ContainerPort)
  {
    && (a.name != "" ==> b.name == a.name) && b.port == a.port && (a.protocol != "" ==> b.protocol == a.protocol)
  }

  ghost predicate ProbeCarries(a: Probe, b: Probe)
  {
    && (a.path != "" ==> b.path == a.path) && b.port == a.port
    && (a.initialDelaySeconds != 0 ==> b.initialDelaySeconds == a.initialDelaySeconds)
    && (a.timeoutSeconds != 0 ==> b.timeoutSeconds == a.timeoutSeconds)
    && (a.periodSeconds != 0 ==> b.periodSeconds == a.periodSeconds)
    && (a.successThreshold != 0 ==> b.successThreshold == a.successThreshold)
    && (a.failureThreshold != 0 ==> b.failureThreshold == a.failureThreshold)
  }

  /** Every value that container `a` sets is the value of `b`. */
  ghost predicate ContainerCarries(a: Container, b: Container)
  {
    && (a.name != "" ==> b.name == a.name)
    && (a.image != "" ==> b.image == a.image)
    && (a.terminationMessagePolicy != "" ==> b.terminationMessagePolicy == a.terminationMessagePolicy)
    && |a.env| <= |b.env| && (forall i :: 0 <= i < |a.env| ==> VariableCarries(a.env[i], b.env[i]))
    && |a.ports| <= |b.ports| && (forall i :: 0 <= i < |a.ports| ==> PortCarries(a.ports[i], b.ports[i]))
    && QuantitiesCarry(a.requests, b.requests) && QuantitiesCarry(a.limits, b.limits)
    && (a.readinessProbe.Some? ==> b.readinessProbe.Some? && ProbeCarries(a.readinessProbe.value, b.readinessProbe.value))
  }

  /** Every value that Pod template `a` sets is the value of `b`. */
  ghost predicate TemplateCarries(a: PodTemplate, b: PodTemplate)
  {
    && MapCarries(a.labels, b.labels) && MapCarries(a.annotations, b.annotations)
    && MapCarries(a.nodeSelector, b.nodeSelector)
    && (a.serviceAccountName != "" ==> b.serviceAccountName == a.serviceAccountName)
    && |a.tolerations| <= |b.tolerations|
    && (forall i :: 0 <= i < |a.tolerations| && a.tolerations[i] != "" ==> b.tolerations[i] == a.tolerations[i])
    && (a.affinity.Some? ==> b.affinity == a.affinity)
    && |a.containers| <= |b.containers|
    && (forall i :: 0 <= i < |a.containers| ==> ContainerCarries(a.containers[i], b.containers[i]))
  }

  ghost predicate OwnerCarries(a: OwnerReference, b: OwnerReference)
  {
    && (a.apiVersion != "" ==> b.apiVersion == a.apiVersion) && (a.kind != "" ==> b.kind == a.kind)
    && (a.name != "" ==> b.name == a.name) && (a.uid != 0 ==> b.uid == a.uid)
    && (a.controller.Some? ==> b.controller == a.controller)
  }

  /** The same of the metadata. */
  ghost predicate MetaCarries(a: ObjectMeta, b: ObjectMeta)
  {
    && (a.name != "" ==> b.name == a.name) && (a.uid != 0 ==> b.uid == a.uid)
    && (a.version != 0 ==> b.version == a.version)
    && MapCarries(a.labels, b.labels) && MapCarries(a.annotations, b.annotations)
    && |a.owners| <= |b.owners| && (forall i :: 0 <= i < |a.owners| ==> OwnerCarries(a.owners[i], b.owners[i]))
  }

  /** The same of what the comparison of a Deployment looks at besides. */
  ghost predicate SpecCarries(a: Adapter, b: Adapter)
  {
    MapCarries(a.selector, b.selector) && (a.replicas.Some? ==> b.replicas == a.replicas)
  }

  /** The visibility is compared even where it is not set. */
  ghost predicate SameVisibility(a: StringMap, b: StringMap)
  {
    (if "networking.knative.dev/visibility" in a then a["networking.knative.dev/visibility"] else "")
    == (if "networking.knative.dev/visibility" in b then b["networking.knative.dev/visibility"] else "")
  }

  ghost predicate SameVisibilities(a: Adapter, b: Adapter)
  {
    && SameVisibility(a.meta.labels, b.meta.labels) && SameVisibility(a.meta.annotations, b.meta.annotations)
    && SameVisibility(a.template.labels, b.template.labels)
    && SameVisibility(a.template.annotations, b.template.annotations)
    && SameVisibility(a.template.nodeSelector, b.template.nodeSelector)
    && (a.backend.Deployment? ==> SameVisibility(a.selector, b.selector))
  }

  lemma MapBelowExactlyWhenCarried(a: StringMap, b: StringMap)
    ensures MapBelow(a, b) <==> MapCarries(a, b) && SameVisibility(a, b)
  {
    if MapCarries(a, b) {
      SubsetSize(a.Keys, b.Keys);
    }
  }

  lemma QuantitiesBelowExactlyWhenCarried(a: ResourceList, b: ResourceList)
    ensures QuantitiesBelow(a, b) <==> QuantitiesCarry(a, b)
  {
    if QuantitiesCarry(a, b) {
      SubsetSize(a.Keys, b.Keys);
    }
  }

  lemma ContainerBelowExactlyWhenCarried(a: Container, b: Container)
    ensures ContainerBelow(a, b) <==> ContainerCarries(a, b)
  {
    QuantitiesBelowExactlyWhenCarried(a.requests, b.requests);
    QuantitiesBelowExactlyWhenCarried(a.limits, b.limits);
    assert forall x: EnvVar, y: EnvVar :: EnvVarBelow(x, y) <==> VariableCarries(x, y);
    assert forall x: ContainerPort, y: ContainerPort :: PortBelow(x, y) <==> PortCarries(x, y);
  }

  lemma TemplateBelowExactlyWhenCarried(a: PodTemplate, b: PodTemplate)
    ensures TemplateBelow(a, b) <==>
            && TemplateCarries(a, b) && SameVisibility(a.labels, b.labels)
            && SameVisibility(a.annotations, b.annotations) && SameVisibility(a.nodeSelector, b.nodeSelector)
  {
    MapBelowExactlyWhenCarried(a.labels, b.labels);
    MapBelowExactlyWhenCarried(a.annotations, b.annotations);
    MapBelowExactlyWhenCarried(a.nodeSelector, b.nodeSelector);
    forall i | 0 <= i < |a.containers| && i < |b.containers|
      ensures ContainerBelow(a.containers[i], b.containers[i]) <==> ContainerCarries(a.containers[i], b.containers[i])
    {
      ContainerBelowExactlyWhenCarried(a.containers[i], b.containers[i]);
    }
  }

  lemma MetaBelowExactlyWhenCarried(a: ObjectMeta, b: ObjectMeta)
    ensures MetaBelow(a, b) <==>
            MetaCarries(a, b) && SameVisibility(a.labels, b.labels) && SameVisibility(a.annotations, b.annotations)
  {
    MapBelowExactlyWhenCarried(a.labels, b.labels);
    MapBelowExactlyWhenCarried(a.annotations, b.annotations);
    assert forall x: OwnerReference, y: OwnerReference :: OwnerBelow(x, y) <==> OwnerCarries(x, y);
  }

  /** Two adapters are equal exactly when the current one carries every value
      that the desired one sets, and their visibilities agree; of a Knative
      Service only the metadata and the template count. */
  lemma EqualExactlyWhenCarried(desired: Adapter, current: Adapter)
    ensures AdapterEqual(desired, current) <==>
            && desired.backend == current.backend
            && MetaCarries(desired.meta, current.meta) && TemplateCarries(desired.template, current.template)
            && (desired.backend.Deployment? ==> SpecCarries(desired, current))
            && SameVisibilities(desired, current)
  {
    MetaBelowExactlyWhenCarried(desired.meta, current.meta);
    TemplateBelowExactlyWhenCarried(desired.template, current.template);
    MapBelowExactlyWhenCarried(desired.selector, current.selector);
  }

  /** The same for accounts and the secrets that they list. */
  lemma AccountEqualExactlyWhenCarried(desired: ServiceAccount, current: ServiceAccount)
    ensures AccountEqual(desired, current) <==>
            && MetaCarries(desired.meta, current.meta)
            && SameVisibility(desired.meta.labels, current.meta.labels)
            && SameVisibility(desired.meta.annotations, current.meta.annotations)
            && |desired.secrets| <= |current.secrets|
            && (forall i :: 0 <= i < |desired.secrets| && desired.secrets[i] != "" ==>
                  current.secrets[i] == desired.secrets[i])
            && |desired.imagePullSecrets| <= |current.imagePullSecrets|
            && (forall i :: 0 <= i < |desired.imagePullSecrets| && desired.imagePullSecrets[i] != "" ==>
                  current.imagePullSecrets[i] == desired.imagePullSecrets[i])
  {
    MetaBelowExactlyWhenCarried(desired.meta, current.meta);
  }

  /** Filling in defaults drops nothing that was set. */
  lemma FilledTemplateCarries(a: PodTemplate, d: PodTemplate)
    ensures TemplateCarries(a, FillTemplate(a, d))
  {
    FilledContainersAreAbove(a.containers, d.containers);
    forall i | 0 <= i < |a.containers|
      ensures ContainerCarries(a.containers[i], FillContainers(a.containers, d.containers)[i])
    {
      ContainerBelowExactlyWhenCarried(a.containers[i], FillContainers(a.containers, d.containers)[i]);
    }
  }

  /** What the custom rules are for: a variable whose value was set to nothing,
      and a visibility that is no longer asked for, make a difference, although
      the derivative order alone would ignore them. */
  lemma ClearedSettingsAreSeen(desired: Adapter, current: Adapter, i: nat, j: nat)
    requires i < |desired.template.containers| && i < |current.template.containers|
    requires j < |desired.template.containers[i].env| && j < |current.template.containers[i].env|
    ensures desired.template.containers[i].env[j].value == "" && current.template.containers[i].env[j].value != "" ==>
              !AdapterEqual(desired, current)
    ensures VISIBILITY_LABEL !in desired.meta.labels && Visibility(current.meta.labels) != "" ==>
              !AdapterEqual(desired, current)
  {
    if AdapterEqual(desired, current) {
      assert ContainerBelow(desired.template.containers[i], current.template.containers[i]);
      assert EnvVarBelow(desired.template.containers[i].env[j], current.template.containers[i].env[j]);
    }
  }

  /** The comparison is transitive: defaults may be filled in step by step. */
  lemma MapBelowIsTransitive(a: StringMap, b: StringMap, c: StringMap)
    requires MapBelow(a, b) && MapBelow(b, c)
    ensures MapBelow(a, c)
  {
  }

  lemma MetaBelowIsTransitive(a: ObjectMeta, b: ObjectMeta, c: ObjectMeta)
    requires MetaBelow(a, b) && MetaBelow(b, c)
    ensures MetaBelow(a, c)
  {
    MapBelowIsTransitive(a.labels, b.labels, c.labels);
    MapBelowIsTransitive(a.annotations, b.annotations, c.annotations);
    forall i | 0 <= i < |a.owners|
      ensures OwnerBelow(a.owners[i], c.owners[i])
    {
      assert OwnerBelow(a.owners[i], b.owners[i]) && OwnerBelow(b.owners[i], c.owners[i]);
    }
  }

  lemma ContainerBelowIsTransitive(a: Container, b: Container, c: Container)
    requires ContainerBelow(a, b) && ContainerBelow(b, c)
    ensures ContainerBelow(a, c)
  {
    forall i | 0 <= i < |a.env|
      ensures EnvVarBelow(a.env[i], c.env[i])
    {
      assert EnvVarBelow(a.env[i], b.env[i]) && EnvVarBelow(b.env[i], c.env[i]);
    }
    forall i | 0 <= i < |a.ports|
      ensures PortBelow(a.ports[i], c.ports[i])
    {
      assert PortBelow(a.ports[i], b.ports[i]) && PortBelow(b.ports[i], c.ports[i]);
    }
  }

  lemma TemplateBelowIsTransitive(a: PodTemplate, b: PodTemplate, c: PodTemplate)
    requires TemplateBelow(a, b) && TemplateBelow(b, c)
    ensures TemplateBelow(a, c)
  {
    MapBelowIsTransitive(a.labels, b.labels, c.labels);
    MapBelowIsTransitive(a.annotations, b.annotations, c.annotations);
    MapBelowIsTransitive(a.nodeSelector, b.nodeSelector, c.nodeSelector);
    forall i | 0 <= i < |a.tolerations|
      ensures TextBelow(a.tolerations[i], c.tolerations[i])
    {
      assert TextBelow(a.tolerations[i], b.tolerations[i]) && TextBelow(b.tolerations[i], c.tolerations[i]);
    }
    forall i | 0 <= i < |a.containers|
      ensures ContainerBelow(a.containers[i], c.containers[i])
    {
      ContainerBelowIsTransitive(a.containers[i], b.containers[i], c.containers[i]);
    }
  }

  lemma EqualIsTransitive(a: Adapter, b: Adapter, c: Adapter)
    requires AdapterEqual(a, b) && AdapterEqual(b, c)
    ensures AdapterEqual(a, c)
  {
    MetaBelowIsTransitive(a.meta, b.meta, c.meta);
    TemplateBelowIsTransitive(a.template, b.template, c.template);
    if a.backend.Deployment? {
      MapBelowIsTransitive(a.selector, b.selector, c.selector);
    }
  }
}
