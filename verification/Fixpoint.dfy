/** One reconcile of an instance with fresh caches and without interference,
    and what a second one does. */
module Fixpoint {
  import opened Wrappers
  import opened Objects
  import opened Owners
  import opened Components
  import opened Semantic
  import opened AdapterLookup
  import opened Cluster

  // ------------------------------------------------------------ one reconcile

  /** getOrCreateAdapterServiceAccount and syncAdapterServiceAccount. */
  function FreshAccount(s: State, rcl: Instance, desired: ServiceAccount, merged: seq<OwnerReference>): (s': State)
    ensures OnlyAccountsDiffer(s, s')
  {
    if desired.meta.name in s.accounts then
      ApplySyncAccount(s, rcl, desired, s.accounts[desired.meta.name], merged)
    else ApplyCreateAccount(s, rcl, desired)
  }

  /** What reconcilers want of an account: nothing that the server assigns, and
      at least one owner, each under its own key. */
  ghost predicate IsDesired(d: ServiceAccount)
  {
    && d.meta.uid == 0 && d.meta.version == 0 && d.secrets == [] && d.imagePullSecrets == []
    && d.meta.owners != [] && DistinctKeys(d.meta.owners)
  }

  ghost predicate NamesMatch(s: State)
  {
    && (forall n :: n in s.accounts ==> s.accounts[n].meta.name == n)
    && (forall n :: n in s.bindings ==> s.bindings[n].meta.name == n)
  }

  /** The order in which the merged owners came out is a possible one. */
  ghost predicate MergesFresh(s: State, desired: ServiceAccount, merged: seq<OwnerReference>)
  {
    desired.meta.name in s.accounts ==> Lists(merged, Merged(s.accounts[desired.meta.name].meta.owners, desired.meta.owners))
  }

  /** getOrCreateAdapterRoleBinding and syncAdapterRoleBinding. */
  function FreshBinding(s: State, rcl: Instance, sa: ServiceAccount, role: BindingRole): State
  {
    WithBinding(s, DesiredBinding(rcl, sa, role))
  }

  function WithBinding(s: State, desired: RoleBinding): State
  {
    if desired.meta.name in s.bindings then ApplySyncBinding(s, desired, s.bindings[desired.meta.name])
    else PutBinding(s, desired.(meta := Stamp(desired.meta, s.clock, s.clock)))
  }

  /** Whose adapters a reconcile looks for: those of the instance, or of the
      account when the adapter serves many instances. */
  function AdapterOwnerUid(rcl: Instance, sa: ServiceAccount): nat
  {
    if rcl.multiTenant then sa.meta.uid else rcl.uid
  }

  /** Where the lister finds the adapter. */
  function FoundKey(listed: seq<Adapter>, rcl: Instance, owner: nat): Option<AdapterKey>
  {
    var a := Lookup(listed, rcl, owner);
    if a.None? then None else Some(AdapterKey(a.value.backend, a.value.meta.name))
  }

  /** getOrCreateAdapter and syncAdapter, given the key of the adapter that was
      found. A created adapter is compared at once as well. */
  function FreshAdapter(s: State, desired: Adapter, found: Option<AdapterKey>, defaults: Adapter): State
    requires found.Some? ==> found.value in s.adapters
  {
    if found.Some? then ApplySyncAdapter(s, desired, s.adapters[found.value], defaults)
    else
      var created := CreatedAdapter(s, desired, defaults);
      ApplySyncAdapter(PutAdapter(s, created), desired, created, defaults)
  }

  function CreatedAdapter(s: State, desired: Adapter, defaults: Adapter): Adapter
  {
    var stored := Fill(desired, defaults);
    stored.(meta := Stamp(stored.meta, s.clock, s.clock))
  }

  // ------------------------------------------------------------- the account

  /** What the source keeps of an account across a second reconcile. */
  ghost predicate SameUpToOrder(a: ServiceAccount, b: ServiceAccount)
  {
    && b.meta.name == a.meta.name && b.meta.uid == a.meta.uid
    && b.meta.labels == a.meta.labels && b.meta.annotations == a.meta.annotations
    && b.secrets == a.secrets && b.imagePullSecrets == a.imagePullSecrets
    && ByKey(b.meta.owners) == ByKey(a.meta.owners) && multiset(b.meta.owners) == multiset(a.meta.owners)
  }

  /** The account that a reconcile left behind: equal to the desired one, not
      managed, or the outcome of a merge. */
  ghost predicate Settled(desired: ServiceAccount, a: ServiceAccount)
  {
    || AccountEqual(desired, a)
    || !Managed(a)
    || (|a.meta.owners| > 1 && exists current :: Lists(a.meta.owners, Merged(current, desired.meta.owners)))
  }

  lemma PlainMapBelowItself(m: StringMap)
    ensures MapBelow(m, m)
  {
  }

  lemma DesiredBelowOwnRewrite(desired: ServiceAccount, a: ServiceAccount)
    requires desired.meta.uid == 0 && desired.meta.version == 0 && desired.secrets == [] && desired.imagePullSecrets == []
    requires a.meta.name == desired.meta.name && a.meta.labels == desired.meta.labels
    requires a.meta.annotations == desired.meta.annotations && a.meta.owners == desired.meta.owners
    ensures AccountEqual(desired, a)
  {
    PlainMapBelowItself(desired.meta.labels);
    PlainMapBelowItself(desired.meta.annotations);
  }

  lemma MergeToOne(current: seq<OwnerReference>, desired: seq<OwnerReference>, merged: seq<OwnerReference>)
    requires Lists(merged, Merged(current, desired)) && DistinctKeys(desired) && desired != [] && |merged| <= 1
    ensures merged == desired
  {
    MergeKeepsDesired(current, desired, merged);
    MergeRefinesOverride(current, desired, merged);
    DistinctKeysAreKept(desired);
    MapSizes(ByKey(current), ByKey(desired));
    assert desired[0] in merged;
  }

  /** What a sync from the stored copy does to the accounts. */
  lemma SyncEffect(s: State, rcl: Instance, desired: ServiceAccount, merged: seq<OwnerReference>)
    requires desired.meta.name in s.accounts && s.accounts[desired.meta.name].meta.name == desired.meta.name
    ensures var cached := s.accounts[desired.meta.name];
            var plan := PlanSync(desired, cached, merged);
            var s' := ApplySyncAccount(s, rcl, desired, cached, merged);
            && (plan.Keep? ==> s'.accounts == s.accounts)
            && (plan.Update? ==>
                  AcceptsAccount(s, plan.account)
                  && s'.accounts == s.accounts[desired.meta.name := UpdatedAccount(s, plan.account)])
  {
  }

  lemma UpdateSettles(desired: ServiceAccount, cached: ServiceAccount, merged: seq<OwnerReference>, uid: nat, version: nat)
    requires IsDesired(desired)
    requires Lists(merged, Merged(cached.meta.owners, desired.meta.owners)) && PlanSync(desired, cached, merged).Update?
    ensures var u := PlanSync(desired, cached, merged).account;
            Settled(desired, u.(meta := Stamp(u.meta, uid, version)))
  {
    var u := PlanSync(desired, cached, merged).account;
    var stored := u.(meta := Stamp(u.meta, uid, version));
    if |merged| > 1 {
      assert Lists(stored.meta.owners, Merged(cached.meta.owners, desired.meta.owners));
    } else {
      MergeToOne(cached.meta.owners, desired.meta.owners, merged);
      DesiredBelowOwnRewrite(desired, stored);
    }
  }

  lemma SyncSettles(s: State, rcl: Instance, desired: ServiceAccount, merged: seq<OwnerReference>)
    requires IsDesired(desired) && desired.meta.name in s.accounts
    requires MergesFresh(s, desired, merged) && NamesMatch(s)
    ensures var s' := FreshAccount(s, rcl, desired, merged);
            var n := desired.meta.name;
            n in s'.accounts && Settled(desired, s'.accounts[n]) && NamesMatch(s')
  {
    var cached := s.accounts[desired.meta.name];
    SyncEffect(s, rcl, desired, merged);
    if PlanSync(desired, cached, merged).Update? {
      UpdateSettles(desired, cached, merged, cached.meta.uid, s.clock);
    }
  }

  lemma DesiredIsDesired(rcl: Instance, owners: seq<Instance>)
    requires owners != [] && DistinctNames(owners)
    ensures IsDesired(DesiredAccount(rcl, owners))
  {
    DesiredAccountShape(rcl, owners);
    forall i, j | 0 <= i < j < |owners|
      ensures OwnerKey(OwnerRefs(owners)[i]) != OwnerKey(OwnerRefs(owners)[j])
    {
      assert InstanceKey(owners[i]) != InstanceKey(owners[j]);
    }
  }

  lemma CreateSettles(s: State, rcl: Instance, desired: ServiceAccount, merged: seq<OwnerReference>)
    requires IsDesired(desired) && desired.meta.name !in s.accounts && NamesMatch(s)
    ensures var s' := FreshAccount(s, rcl, desired, merged);
            var n := desired.meta.name;
            n in s'.accounts && Settled(desired, s'.accounts[n]) && NamesMatch(s')
  {
    DesiredBelowOwnRewrite(desired, desired.(meta := Stamp(desired.meta, s.clock, s.clock)));
  }

  lemma SettledUpdate(desired: ServiceAccount, a: ServiceAccount, merged: seq<OwnerReference>, version: nat)
    requires Settled(desired, a) && a.meta.name == desired.meta.name
    requires Lists(merged, Merged(a.meta.owners, desired.meta.owners))
    requires PlanSync(desired, a, merged).Update?
    ensures var u := PlanSync(desired, a, merged).account;
            SameUpToOrder(a, u.(meta := Stamp(u.meta, a.meta.uid, version))) && u.meta.version == a.meta.version
  {
    var current :| Lists(a.meta.owners, Merged(current, desired.meta.owners));
    MergeAgainOnlyReorders(current, desired.meta.owners, a.meta.owners, merged);
  }

  /** A settled account keeps its owner map, labels, annotations and secrets
      when the same instance is reconciled again. */
  lemma SettledStays(s: State, rcl: Instance, desired: ServiceAccount, merged: seq<OwnerReference>)
    requires desired.meta.name in s.accounts && MergesFresh(s, desired, merged)
    requires Settled(desired, s.accounts[desired.meta.name])
    requires s.accounts[desired.meta.name].meta.name == desired.meta.name
    ensures var s' := FreshAccount(s, rcl, desired, merged);
            exists b :: SameUpToOrder(s.accounts[desired.meta.name], b) && s'.accounts == s.accounts[desired.meta.name := b]
  {
    var a := s.accounts[desired.meta.name];
    SyncEffect(s, rcl, desired, merged);
    if PlanSync(desired, a, merged).Update? {
      SettledUpdate(desired, a, merged, s.clock);
    } else {
      assert s.accounts == s.accounts[desired.meta.name := a] && SameUpToOrder(a, a);
    }
  }

  // ------------------------------------------------------------ the bindings

  predicate BindingDone(s: State, rcl: Instance, sa: ServiceAccount, role: BindingRole)
  {
    var desired := DesiredBinding(rcl, sa, role);
    desired.meta.name in s.bindings && BindingEqual(desired, s.bindings[desired.meta.name])
  }

  /** A sync writes nothing, or replaces the stored binding by the desired. */
  lemma BindingSyncEffect(s: State, desired: RoleBinding)
    requires desired.meta.name in s.bindings && s.bindings[desired.meta.name].meta.name == desired.meta.name
    ensures var n := desired.meta.name;
            var s' := ApplySyncBinding(s, desired, s.bindings[n]);
            && (BindingEqual(desired, s.bindings[n]) ==> s' == s)
            && (!BindingEqual(desired, s.bindings[n]) ==>
                  s'.bindings == s.bindings[n := desired.(meta := Stamp(desired.meta, s.bindings[n].meta.uid, s.clock))])
  {
  }

  lemma WrittenOnce(s: State, desired: RoleBinding)
    requires forall n :: n in s.bindings ==> s.bindings[n].meta.name == n
    ensures var s', n := WithBinding(s, desired), desired.meta.name;
            && n in s'.bindings && BindingEqual(desired, s'.bindings[n])
            && OnlyDependentsDiffer(s, s') && s'.adapters == s.adapters
            && (forall m :: m in s'.bindings ==> s'.bindings[m].meta.name == m)
            && (forall m :: m in s.bindings && m != n ==> m in s'.bindings && s'.bindings[m] == s.bindings[m])
  {
    if desired.meta.name in s.bindings {
      BindingSyncEffect(s, desired);
    }
  }

  /** Once a binding was reconciled, doing it again writes nothing. */
  lemma BindingIsWrittenOnce(s: State, rcl: Instance, sa: ServiceAccount, role: BindingRole)
    requires forall n :: n in s.bindings ==> s.bindings[n].meta.name == n
    ensures var s' := FreshBinding(s, rcl, sa, role);
            && BindingDone(s', rcl, sa, role) && OnlyDependentsDiffer(s, s') && s'.adapters == s.adapters
            && (var b := s'.bindings[DesiredBinding(rcl, sa, role).meta.name];
                && b.subject == sa.meta.name && b.meta.owners == [AccountRef(sa)]
                && b.roleName == if role.ConfigWatcher? then "triggermesh-config-watcher" else MTAdapterObjectName(rcl.kind))
            && (forall n :: n in s'.bindings ==> s'.bindings[n].meta.name == n)
            && (forall n :: n in s.bindings && n != DesiredBinding(rcl, sa, role).meta.name ==>
                  n in s'.bindings && s'.bindings[n] == s.bindings[n])
  {
    WrittenOnce(s, DesiredBinding(rcl, sa, role));
  }

  /** The two roles are bound under different names. */
  lemma SecondBindingKeepsFirst(s: State, rcl: Instance, sa: ServiceAccount)
    requires BindingDone(s, rcl, sa, ConfigWatcher) && forall n :: n in s.bindings ==> s.bindings[n].meta.name == n
    ensures BindingDone(FreshBinding(s, rcl, sa, MultiTenantAdapter), rcl, sa, ConfigWatcher)
  {
    BindingIsWrittenOnce(s, rcl, sa, MultiTenantAdapter);
    BindingNamesAreSeparate(sa.meta.name, rcl.kind);
  }

  // ------------------------------------------------------------- the adapter

  /** The desired adapter states no other value for an annotation that the
      server owns. */
  predicate KeepsServerAnnotations(desired: Adapter, cached: Adapter)
  {
    desired.backend.KnativeService? ==>
      forall k <- Preserved(cached.meta.annotations) :: k in desired.meta.annotations ==>
        TextBelow(desired.meta.annotations[k], cached.meta.annotations[k])
  }

  lemma ServerAnnotationsAreNotVisibility()
    ensures CREATOR_ANNOTATION != VISIBILITY_LABEL && UPDATER_ANNOTATION != VISIBILITY_LABEL
  {
    assert CREATOR_ANNOTATION[0] == 's' && VISIBILITY_LABEL[0] == 'n' && UPDATER_ANNOTATION[0] == 's';
  }

  lemma OverlaidMapIsAbove(a: StringMap, p: StringMap)
    ensures (forall k <- a :: TextBelow(a[k], (a + p)[k])) <==> forall k <- p :: k in a ==> TextBelow(a[k], p[k])
  {
  }

  lemma PreservedAnnotationsBelow(a: StringMap, p: StringMap, d: StringMap)
    requires VISIBILITY_LABEL !in p
    ensures MapBelow(a, d + (a + p)) <==>
            VisibilityUntouched(a, d) && forall k <- p :: k in a ==> TextBelow(a[k], p[k])
  {
    MapSizes(d, a + p);
    assert |a| <= |a + p| by {
      assert (a + p).Keys == a.Keys + p.Keys;
      SubsetSize(a.Keys, (a + p).Keys);
    }
    OverlaidMapIsAbove(a, p);
    assert forall k <- a :: k in d + (a + p) && (d + (a + p))[k] == (a + p)[k];
  }

  lemma UpdatedMetaIsAbove(desired: Adapter, cached: Adapter, d: StringMap, l: StringMap, uid: nat, version: nat)
    requires desired.meta.uid == 0 && desired.meta.version == 0
    ensures var named := desired.meta.(name := cached.meta.name);
            var a := AdapterUpdate(desired, cached).meta.annotations;
            MetaBelow(named, named.(labels := l + named.labels, annotations := d + a, uid := uid, version := version))
            <==> VisibilityUntouched(named.labels, l) && VisibilityUntouched(named.annotations, d)
                 && KeepsServerAnnotations(desired, cached)
  {
    var p := Preserved(cached.meta.annotations);
    FilledMapIsAbove(desired.meta.labels, l);
    FilledMapIsAbove(desired.meta.annotations, d);
    ServerAnnotationsAreNotVisibility();
    PreservedAnnotationsBelow(desired.meta.annotations, p, d);
    UnstampedMetaBelow(desired.meta.(name := cached.meta.name), l + desired.meta.labels,
                       d + AdapterUpdate(desired, cached).meta.annotations, uid, version);
  }

  /** What the server stores for an update equals the desired adapter, so that
      the next reconcile does not write, exactly when the defaults add no
      visibility and the desired adapter leaves the server's annotations. */
  lemma UpdatedAdapterIsEqual(desired: Adapter, cached: Adapter, defaults: Adapter, uid: nat, version: nat)
    requires desired.meta.uid == 0 && desired.meta.version == 0
    ensures var stored := Fill(AdapterUpdate(desired, cached), defaults);
            AdapterEqual(desired.(meta := desired.meta.(name := cached.meta.name)),
                         stored.(meta := Stamp(stored.meta, uid, version)))
            <==> DefaultsLeaveVisibility(desired, defaults) && KeepsServerAnnotations(desired, cached)
  {
    UpdatedMetaIsAbove(desired, cached, defaults.meta.annotations, defaults.meta.labels, uid, version);
    FilledTemplateIsAbove(desired.template, defaults.template);
    FilledMapIsAbove(desired.selector, defaults.selector);
  }

  /** The annotations that the server sets on a Knative Service, which a
      reconcile leaves as they are. */
  predicate IsServerAnnotation(backend: Backend, k: string)
  {
    backend.KnativeService? && (k == "serving.knative.dev/creator" || k == "serving.knative.dev/lastModifier")
  }

  /** Every value that the desired adapter sets is the stored one's. */
  ghost predicate Delivered(desired: Adapter, stored: Adapter)
  {
    && stored.backend == desired.backend && TemplateCarries(desired.template, stored.template)
    && MapCarries(desired.meta.labels, stored.meta.labels)
    && (forall k <- desired.meta.annotations :: k in stored.meta.annotations
          && (desired.meta.annotations[k] != "" && !IsServerAnnotation(desired.backend, k) ==>
                stored.meta.annotations[k] == desired.meta.annotations[k]))
    && |desired.meta.owners| <= |stored.meta.owners|
    && (forall i :: 0 <= i < |desired.meta.owners| ==> OwnerCarries(desired.meta.owners[i], stored.meta.owners[i]))
    && (desired.backend.Deployment? ==> SpecCarries(desired, stored))
  }

  lemma EqualDelivers(desired: Adapter, cached: Adapter)
    requires AdapterEqual(desired.(meta := desired.meta.(name := cached.meta.name)), cached)
    ensures Delivered(desired, cached)
  {
    EqualExactlyWhenCarried(desired.(meta := desired.meta.(name := cached.meta.name)), cached);
  }

  /** An update carries the desired values under the name of the copy that it
      replaces, and what the server had annotated. */
  lemma UpdateDelivers(desired: Adapter, cached: Adapter, defaults: Adapter, uid: nat, version: nat)
    ensures var stored := Fill(AdapterUpdate(desired, cached), defaults);
            var a := stored.(meta := Stamp(stored.meta, uid, version));
            && Delivered(desired, a) && a.meta.name == cached.meta.name
            && (forall k <- cached.meta.annotations :: IsServerAnnotation(desired.backend, k) ==>
                  k in a.meta.annotations && a.meta.annotations[k] == cached.meta.annotations[k])
  {
    FilledTemplateCarries(desired.template, defaults.template);
  }

  lemma SyncDelivers(s: State, desired: Adapter, k: AdapterKey, defaults: Adapter)
    requires k in s.adapters && k.backend == desired.backend == s.adapters[k].backend && s.adapters[k].meta.name == k.name
    ensures var t := ApplySyncAdapter(s, desired, s.adapters[k], defaults);
            k in t.adapters && Delivered(desired, t.adapters[k])
  {
    var cached := s.adapters[k];
    if AdapterEqual(desired.(meta := desired.meta.(name := cached.meta.name)), cached) {
      EqualDelivers(desired, cached);
    } else {
      UpdateDelivers(desired, cached, defaults, cached.meta.uid, s.clock);
      assert AcceptsAdapter(s, AdapterUpdate(desired, cached));
    }
  }

  /** After a reconcile with a fresh cache the stored adapter has every value that
      the desired one sets: its image, variables, ports, quantities, probe,
      account, tolerations, affinity, labels, annotations and selector. */
  lemma FreshAdapterDelivers(s: State, desired: Adapter, found: Option<AdapterKey>, defaults: Adapter)
    requires found.Some? ==>
               && found.value in s.adapters && found.value.backend == desired.backend == s.adapters[found.value].backend
               && s.adapters[found.value].meta.name == found.value.name
    ensures var t, k := FreshAdapter(s, desired, found, defaults), AdapterKeyOf(desired, found);
            k in t.adapters && Delivered(desired, t.adapters[k])
  {
    if found.Some? {
      SyncDelivers(s, desired, found.value, defaults);
    } else {
      SyncDelivers(PutAdapter(s, CreatedAdapter(s, desired, defaults)), desired,
                   AdapterKey(desired.backend, desired.meta.name), defaults);
    }
  }

  predicate AdapterDone(s: State, desired: Adapter, k: AdapterKey)
  {
    k in s.adapters && AdapterEqual(desired.(meta := desired.meta.(name := s.adapters[k].meta.name)), s.adapters[k])
  }

  /** Where the reconciler left the adapter. */
  function AdapterKeyOf(desired: Adapter, found: Option<AdapterKey>): AdapterKey
  {
    if found.Some? then found.value else AdapterKey(desired.backend, desired.meta.name)
  }

  ghost predicate CanSettleAdapter(s: State, desired: Adapter, found: Option<AdapterKey>, defaults: Adapter)
  {
    && desired.meta.uid == 0 && desired.meta.version == 0 && DefaultsLeaveVisibility(desired, defaults)
    && (found.Some? ==>
          && found.value in s.adapters && found.value.backend == desired.backend
          && s.adapters[found.value].backend == found.value.backend
          && s.adapters[found.value].meta.name == found.value.name
          && KeepsServerAnnotations(desired, s.adapters[found.value]))
  }

  /** Creating or syncing an adapter leaves nothing to write. */
  lemma AdapterIsWrittenOnce(s: State, desired: Adapter, found: Option<AdapterKey>, defaults: Adapter)
    requires CanSettleAdapter(s, desired, found, defaults)
    ensures var s' := FreshAdapter(s, desired, found, defaults);
            AdapterDone(s', desired, AdapterKeyOf(desired, found)) && OnlyDependentsDiffer(s, s') && s'.bindings == s.bindings
  {
    if found.Some? {
      var cached := s.adapters[found.value];
      UpdatedAdapterIsEqual(desired, cached, defaults, cached.meta.uid, s.clock);
    } else {
      StoredCopyIsEqual(desired, defaults, s.clock, s.clock);
      assert desired.(meta := desired.meta.(name := desired.meta.name)) == desired;
    }
  }

  // -------------------------------------------------------- a whole reconcile

  /** Both bindings of an account. */
  function BoundRoles(s: State, rcl: Instance, sa: ServiceAccount): (s': State)
    ensures OnlyDependentsDiffer(s, s') && s'.adapters == s.adapters && s'.adaptersSeen == s.adaptersSeen
  {
    var watched := FreshBinding(s, rcl, sa, ConfigWatcher);
    if rcl.multiTenant then FreshBinding(watched, rcl, sa, MultiTenantAdapter) else watched
  }

  /** The RBAC objects of an instance. */
  function FreshRbac(s: State, rcl: Instance, desired: ServiceAccount, merged: seq<OwnerReference>): (s': State)
    ensures s'.adapters == s.adapters
  {
    var bound := FreshAccount(s, rcl, desired, merged);
    var n := desired.meta.name;
    if n !in bound.accounts then bound else BoundRoles(bound, rcl, bound.accounts[n])
  }

  /** A multi-tenant adapter is owned by the account. */
  function OwnedAdapter(rcl: Instance, built: Adapter, sa: ServiceAccount): Adapter
  {
    if rcl.multiTenant then built.(meta := built.meta.(owners := [AccountRef(sa)])) else built
  }

  /** reconcileAdapter with fresh caches: the RBAC objects, then the adapter. */
  function FreshReconcile(s: State, rcl: Instance, desired: ServiceAccount, merged: seq<OwnerReference>, built: Adapter,
                          found: Option<AdapterKey>, defaults: Adapter): State
    requires found.Some? ==> found.value in s.adapters
  {
    var bound := FreshRbac(s, rcl, desired, merged);
    var n := desired.meta.name;
    if n !in bound.accounts then bound
    else FreshAdapter(bound, OwnedAdapter(rcl, built, bound.accounts[n]), found, defaults)
  }

  ghost predicate RbacDone(s: State, rcl: Instance, desired: ServiceAccount)
  {
    && desired.meta.name in s.accounts && Settled(desired, s.accounts[desired.meta.name])
    && s.accounts[desired.meta.name].meta.name == desired.meta.name
    && BindingDone(s, rcl, s.accounts[desired.meta.name], ConfigWatcher)
    && (rcl.multiTenant ==> BindingDone(s, rcl, s.accounts[desired.meta.name], MultiTenantAdapter))
  }

  lemma AccountIsSettledOnce(s: State, rcl: Instance, desired: ServiceAccount, merged: seq<OwnerReference>)
    requires NamesMatch(s) && IsDesired(desired) && MergesFresh(s, desired, merged)
    ensures var s' := FreshAccount(s, rcl, desired, merged);
            var n := desired.meta.name;
            NamesMatch(s') && n in s'.accounts && Settled(desired, s'.accounts[n])
  {
    if desired.meta.name in s.accounts {
      SyncSettles(s, rcl, desired, merged);
    } else {
      CreateSettles(s, rcl, desired, merged);
    }
  }

  lemma RbacIsDoneOnce(s: State, rcl: Instance, desired: ServiceAccount, merged: seq<OwnerReference>)
    requires NamesMatch(s) && IsDesired(desired) && MergesFresh(s, desired, merged)
    ensures RbacDone(FreshRbac(s, rcl, desired, merged), rcl, desired)
  {
    AccountIsSettledOnce(s, rcl, desired, merged);
    var bound := FreshAccount(s, rcl, desired, merged);
    var sa := bound.accounts[desired.meta.name];
    BindingIsWrittenOnce(bound, rcl, sa, ConfigWatcher);
    var watched := FreshBinding(bound, rcl, sa, ConfigWatcher);
    if rcl.multiTenant {
      BindingIsWrittenOnce(watched, rcl, sa, MultiTenantAdapter);
      SecondBindingKeepsFirst(watched, rcl, sa);
    }
  }

  /** Nothing is written but, perhaps, the account `n`, which keeps its UID,
      owner map, labels, annotations and secrets. */
  ghost predicate StableUpToOrder(s: State, s': State, n: string)
  {
    && s'.bindings == s.bindings && s'.bindingsSeen == s.bindingsSeen
    && s'.adapters == s.adapters && s'.adaptersSeen == s.adaptersSeen
    && s'.accounts.Keys == s.accounts.Keys && n in s.accounts
    && SameUpToOrder(s.accounts[n], s'.accounts[n])
    && (forall m :: m in s.accounts && m != n ==> s'.accounts[m] == s.accounts[m])
  }

  lemma ReplacingIsStable(s: State, s': State, n: string, b: ServiceAccount)
    requires n in s.accounts && SameUpToOrder(s.accounts[n], b) && s'.accounts == s.accounts[n := b]
    requires OnlyAccountsDiffer(s, s')
    ensures StableUpToOrder(s, s', n)
  {
  }

  lemma DoneRolesStay(s: State, rcl: Instance, sa: ServiceAccount)
    requires BindingDone(s, rcl, sa, ConfigWatcher) && (rcl.multiTenant ==> BindingDone(s, rcl, sa, MultiTenantAdapter))
    ensures BoundRoles(s, rcl, sa) == s
  {
  }

  lemma DoneDependsOnIdentity(s: State, s': State, rcl: Instance, a: ServiceAccount, b: ServiceAccount, role: BindingRole)
    requires a.meta.name == b.meta.name && a.meta.uid == b.meta.uid && s'.bindings == s.bindings
    requires BindingDone(s, rcl, a, role)
    ensures BindingDone(s', rcl, b, role)
  {
  }

  /** Once done, reconciling the RBAC objects again can only reorder the owners
      of the account. */
  lemma RbacIsStable(s: State, rcl: Instance, desired: ServiceAccount, merged: seq<OwnerReference>)
    requires RbacDone(s, rcl, desired) && MergesFresh(s, desired, merged)
    ensures StableUpToOrder(s, FreshRbac(s, rcl, desired, merged), desired.meta.name)
  {
    SettledStays(s, rcl, desired, merged);
    var n, bound := desired.meta.name, FreshAccount(s, rcl, desired, merged);
    var b :| SameUpToOrder(s.accounts[n], b) && bound.accounts == s.accounts[n := b];
    DoneDependsOnIdentity(s, bound, rcl, s.accounts[n], b, ConfigWatcher);
    if rcl.multiTenant {
      DoneDependsOnIdentity(s, bound, rcl, s.accounts[n], b, MultiTenantAdapter);
    }
    DoneRolesStay(bound, rcl, b);
    ReplacingIsStable(s, bound, n, b);
  }

  lemma OwnershipDependsOnIdentity(rcl: Instance, built: Adapter, a: ServiceAccount, b: ServiceAccount)
    requires a.meta.name == b.meta.name && a.meta.uid == b.meta.uid
    ensures OwnedAdapter(rcl, built, a) == OwnedAdapter(rcl, built, b)
  {
  }

  lemma SecondReconcileOfDesired(s: State, rcl: Instance, desired: ServiceAccount, merged: seq<OwnerReference>,
                                 merged': seq<OwnerReference>, built: Adapter, found: Option<AdapterKey>,
                                 defaults: Adapter, defaults': Adapter)
    requires NamesMatch(s) && IsDesired(desired) && MergesFresh(s, desired, merged)
    requires CanSettleAdapter(s, built, found, defaults)
    requires MergesFresh(FreshReconcile(s, rcl, desired, merged, built, found, defaults), desired, merged')
    ensures var k := AdapterKeyOf(built, found);
            var s1 := FreshReconcile(s, rcl, desired, merged, built, found, defaults);
            k in s1.adapters
            && StableUpToOrder(s1, FreshReconcile(s1, rcl, desired, merged', built, Some(k), defaults'), desired.meta.name)
  {
    RbacIsDoneOnce(s, rcl, desired, merged);
    var bound := FreshRbac(s, rcl, desired, merged);
    var sa := bound.accounts[desired.meta.name];
    var owned := OwnedAdapter(rcl, built, sa);
    AdapterIsWrittenOnce(bound, owned, found, defaults);
    var s1 := FreshReconcile(s, rcl, desired, merged, built, found, defaults);
    RbacIsStable(s1, rcl, desired, merged');
    OwnershipDependsOnIdentity(rcl, built, sa, FreshRbac(s1, rcl, desired, merged').accounts[desired.meta.name]);
  }

  /** Reconciling the same unchanged instance a second time, with fresh caches
      and no interference: no RoleBinding and no adapter is written, and of the
      account only the order of the owners, and the version, may change. */
  lemma SecondReconcileIsStable(s: State, rcl: Instance, owners: seq<Instance>, merged: seq<OwnerReference>,
                                merged': seq<OwnerReference>, built: Adapter, found: Option<AdapterKey>,
                                defaults: Adapter, defaults': Adapter)
    requires NamesMatch(s) && owners != [] && DistinctNames(owners) && MergesFresh(s, DesiredAccount(rcl, owners), merged)
    requires CanSettleAdapter(s, built, found, defaults)
    requires MergesFresh(FreshReconcile(s, rcl, DesiredAccount(rcl, owners), merged, built, found, defaults),
                         DesiredAccount(rcl, owners), merged')
    ensures var desired := DesiredAccount(rcl, owners);
            var k := AdapterKeyOf(built, found);
            var s1 := FreshReconcile(s, rcl, desired, merged, built, found, defaults);
            k in s1.adapters
            && StableUpToOrder(s1, FreshReconcile(s1, rcl, desired, merged', built, Some(k), defaults'), desired.meta.name)
  {
    DesiredIsDesired(rcl, owners);
    SecondReconcileOfDesired(s, rcl, DesiredAccount(rcl, owners), merged, merged', built, found, defaults, defaults');
  }

  /** When the account itself is written again: the stored owners do not begin
      with the desired ones in their order, or the kept labels or annotations
      are not the desired ones. */
  lemma AccountIsWrittenAgainExactlyWhen(desired: ServiceAccount, a: ServiceAccount, merged: seq<OwnerReference>)
    requires desired.meta.uid == 0 && desired.meta.version == 0 && desired.secrets == [] && desired.imagePullSecrets == []
    requires a.meta.name == desired.meta.name && Managed(a)
    requires forall r :: r in desired.meta.owners ==>
               r.apiVersion != "" && r.kind != "" && r.name != "" && r.uid != 0 && r.controller.Some?
    ensures PlanSync(desired, a, merged).Keep? <==>
            desired.meta.owners <= a.meta.owners
            && MapBelow(desired.meta.labels, a.meta.labels) && MapBelow(desired.meta.annotations, a.meta.annotations)
  {
    var d, c := desired.meta.owners, a.meta.owners;
    if |d| <= |c| {
      forall i | 0 <= i < |d|
        ensures OwnerBelow(d[i], c[i]) <==> d[i] == c[i]
      {
        assert d[i] in d;
      }
    }
  }
}
