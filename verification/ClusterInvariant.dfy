/** What every reachable state of the cluster satisfies, whatever the caches
    returned and however the steps were interleaved. */
module ClusterInvariant {
  import opened Wrappers
  import opened Objects
  import opened Owners
  import opened Components
  import opened Text
  import opened Semantic
  import opened Cluster

  ghost predicate InstancesOk(s: State)
  {
    && (forall i :: i in s.instancesSeen ==> CanStore(s, i) && 0 < i.uid < s.clock)
    && (forall k :: k in s.instances ==> s.instances[k] in s.instancesSeen && InstanceKey(s.instances[k]) == k)
    && (forall i, j :: i in s.instancesSeen && j in s.instancesSeen && i.uid == j.uid ==>
          InstanceKey(i) == InstanceKey(j) && i.apiVersion == j.apiVersion)
  }

  ghost predicate AccountsOk(s: State)
  {
    && (forall a :: a in s.accountsSeen ==> 0 < a.meta.uid < s.clock && a.meta.version < s.clock)
    && (forall n :: n in s.accounts ==> s.accounts[n] in s.accountsSeen && s.accounts[n].meta.name == n)
    && (forall a, b :: a in s.accountsSeen && b in s.accountsSeen && a.meta.version == b.meta.version ==> a == b)
    && (forall a, b :: a in s.accountsSeen && b in s.accountsSeen && a.meta.uid == b.meta.uid ==>
          a.meta.name == b.meta.name && Managed(a) == Managed(b))
  }

  ghost predicate BindingsOk(s: State)
  {
    && (forall b :: b in s.bindingsSeen ==> 0 < b.meta.uid < s.clock && b.meta.version < s.clock)
    && (forall n :: n in s.bindings ==> s.bindings[n] in s.bindingsSeen && s.bindings[n].meta.name == n)
    && (forall a, b :: a in s.bindingsSeen && b in s.bindingsSeen && a.meta.version == b.meta.version ==> a == b)
  }

  ghost predicate AdaptersOk(s: State)
  {
    && (forall a :: a in s.adaptersSeen ==> 0 < a.meta.uid < s.clock && a.meta.version < s.clock)
    && (forall k :: k in s.adapters ==> s.adapters[k] in s.adaptersSeen
                                        && AdapterKey(s.adapters[k].backend, s.adapters[k].meta.name) == k)
    && (forall a, b :: a in s.adaptersSeen && b in s.adaptersSeen && a.meta.version == b.meta.version ==> a == b)
  }

  /** The UIDs of instances, of accounts and of what accounts own are apart. */
  ghost predicate UidsApart(s: State)
  {
    && (forall i, a :: i in s.instancesSeen && a in s.accountsSeen ==> i.uid != a.meta.uid)
    && (forall i, b :: i in s.instancesSeen && b in s.bindingsSeen ==> i.uid != b.meta.uid)
    && (forall i, d :: i in s.instancesSeen && d in s.adaptersSeen ==> i.uid != d.meta.uid)
    && (forall a, b :: a in s.accountsSeen && b in s.bindingsSeen ==> a.meta.uid != b.meta.uid)
    && (forall a, d :: a in s.accountsSeen && d in s.adaptersSeen ==> a.meta.uid != d.meta.uid)
  }

  ghost predicate RefersToInstance(s: State, r: OwnerReference)
  {
    exists i :: i in s.instancesSeen && InstanceKey(i) == OwnerKey(r) && i.uid == r.uid
  }

  /** All owners of an account are instances; a managed account has owners, one
      for each key. */
  ghost predicate AccountShape(s: State, a: ServiceAccount)
  {
    && (Managed(a) ==> a.meta.owners != [] && DistinctKeys(a.meta.owners))
    && (forall r :: r in a.meta.owners ==> RefersToInstance(s, r))
  }

  ghost predicate BoundTo(a: ServiceAccount, b: RoleBinding)
  {
    b.meta.owners == [AccountRef(a)] && b.subject == a.meta.name
  }

  ghost predicate IsSharedName(n: string)
  {
    exists kind :: n == MTAdapterObjectName(kind) == ToLower(kind) + "-adapter"
  }

  /** A binding is owned by the account it binds, and its name tells which, and
      which role it grants: the one for reading configuration, or the one that is
      named after the component. */
  ghost predicate BindingShape(s: State, b: RoleBinding)
  {
    && (exists a :: a in s.accountsSeen && BoundTo(a, b))
    && ((b.meta.name == b.subject + "-config-watcher" && b.roleName == "triggermesh-config-watcher")
        || (b.meta.name == b.subject && IsSharedName(b.meta.name) && b.roleName == b.meta.name))
  }

  ghost predicate AdapterShape(s: State, d: Adapter)
  {
    || (exists i :: i in s.instancesSeen && d.meta.owners == [InstanceRef(i, true)])
    || (exists a :: a in s.accountsSeen && d.meta.owners == [AccountRef(a)])
  }

  ghost predicate ReturnedOk(s: State, rcl: Instance, sa: ServiceAccount)
  {
    rcl in s.instancesSeen && sa in s.accountsSeen && sa.meta.name == DesiredAccount(rcl, []).meta.name
  }

  ghost predicate Shapes(s: State)
  {
    && (forall a :: a in s.accountsSeen ==> AccountShape(s, a))
    && (forall b :: b in s.bindingsSeen ==> BindingShape(s, b))
    && (forall d :: d in s.adaptersSeen ==> AdapterShape(s, d))
    && (forall rcl, sa :: (rcl, sa) in s.returned ==> ReturnedOk(s, rcl, sa))
  }

  ghost predicate Inv(s: State)
  {
    s.clock > 0 && InstancesOk(s) && AccountsOk(s) && BindingsOk(s) && AdaptersOk(s) && UidsApart(s) && Shapes(s)
  }

  // ------------------------------------------------------------- preservation

  /** Shapes only ask for more copies to have been seen. */
  lemma ShapesGrow(s: State, s': State)
    requires Shapes(s) && s.instancesSeen <= s'.instancesSeen && s.accountsSeen <= s'.accountsSeen
    ensures forall a :: a in s.accountsSeen ==> AccountShape(s', a)
    ensures forall b :: b in s.bindingsSeen ==> BindingShape(s', b)
    ensures forall d :: d in s.adaptersSeen ==> AdapterShape(s', d)
    ensures forall rcl, sa :: (rcl, sa) in s.returned ==> ReturnedOk(s', rcl, sa)
  {
    forall a | a in s.accountsSeen
      ensures AccountShape(s', a)
    {
      assert AccountShape(s, a);
      forall r | r in a.meta.owners
        ensures RefersToInstance(s', r)
      {
        assert RefersToInstance(s, r);
      }
    }
    forall b | b in s.bindingsSeen
      ensures BindingShape(s', b)
    {
      assert BindingShape(s, b);
    }
    forall d | d in s.adaptersSeen
      ensures AdapterShape(s', d)
    {
      assert AdapterShape(s, d);
    }
  }

  lemma InstanceStored(s: State, i: Instance, s': State)
    requires Inv(s) && CanStore(s, i) && 0 < i.uid <= s.clock
    requires i.uid == s.clock || (InstanceKey(i) in s.instances && s.instances[InstanceKey(i)].uid == i.uid
                                  && s.instances[InstanceKey(i)].apiVersion == i.apiVersion)
    requires s' == s.(instances := s.instances[InstanceKey(i) := i], instancesSeen := s.instancesSeen + {i},
                      clock := if i.uid == s.clock then s.clock + 1 else s.clock)
    ensures Inv(s')
  {
    ShapesGrow(s, s');
    InstanceStoredInstances(s, i, s');
    InstanceStoredUids(s, i, s');
  }

  lemma InstanceStoredInstances(s: State, i: Instance, s': State)
    requires InstancesOk(s) && CanStore(s, i) && 0 < i.uid <= s.clock
    requires i.uid == s.clock || (InstanceKey(i) in s.instances && s.instances[InstanceKey(i)].uid == i.uid
                                  && s.instances[InstanceKey(i)].apiVersion == i.apiVersion)
    requires s'.instances == s.instances[InstanceKey(i) := i] && s'.instancesSeen == s.instancesSeen + {i}
    requires s'.clock == if i.uid == s.clock then s.clock + 1 else s.clock
    ensures InstancesOk(s')
  {
    forall x, y | x in s'.instancesSeen && y in s'.instancesSeen && x.uid == y.uid
      ensures InstanceKey(x) == InstanceKey(y) && x.apiVersion == y.apiVersion
    {
      var stored := if i.uid == s.clock then i else s.instances[InstanceKey(i)];
      assert i.uid != s.clock ==> stored in s.instancesSeen;
    }
  }

  lemma InstanceStoredUids(s: State, i: Instance, s': State)
    requires Inv(s) && 0 < i.uid <= s.clock
    requires i.uid == s.clock || (InstanceKey(i) in s.instances && s.instances[InstanceKey(i)].uid == i.uid)
    requires s'.instancesSeen == s.instancesSeen + {i} && s'.accountsSeen == s.accountsSeen
    requires s'.bindingsSeen == s.bindingsSeen && s'.adaptersSeen == s.adaptersSeen
    ensures UidsApart(s')
  {
    if i.uid != s.clock {
      assert s.instances[InstanceKey(i)] in s.instancesSeen;
    }
  }

  /** An account stored under a fresh version keeps the invariant when its UID
      is fresh or that of the account it replaces. */
  lemma AccountStored(s: State, sa: ServiceAccount)
    requires Inv(s) && sa.meta.version == s.clock && AccountShape(s, sa)
    requires sa.meta.uid == s.clock
             || (sa.meta.name in s.accounts && s.accounts[sa.meta.name].meta.uid == sa.meta.uid
                 && Managed(s.accounts[sa.meta.name]) == Managed(sa))
    ensures Inv(PutAccount(s, sa))
  {
    var s' := PutAccount(s, sa);
    ShapesGrow(s, s');
    AccountStoredAccounts(s, sa);
    AccountStoredUids(s, sa);
    assert AccountShape(s', sa) by {
      forall r | r in sa.meta.owners
        ensures RefersToInstance(s', r)
      {
        assert RefersToInstance(s, r);
      }
    }
  }

  lemma SameUidSameAccount(s: State, sa: ServiceAccount, a: ServiceAccount)
    requires AccountsOk(s) && a in s.accountsSeen && a.meta.uid == sa.meta.uid
    requires sa.meta.uid == s.clock
             || (sa.meta.name in s.accounts && s.accounts[sa.meta.name].meta.uid == sa.meta.uid
                 && Managed(s.accounts[sa.meta.name]) == Managed(sa))
    ensures a.meta.name == sa.meta.name && Managed(a) == Managed(sa)
  {
    assert sa.meta.uid != s.clock;
    assert s.accounts[sa.meta.name] in s.accountsSeen;
  }

  lemma AccountStoredAccounts(s: State, sa: ServiceAccount)
    requires AccountsOk(s) && sa.meta.version == s.clock && s.clock > 0
    requires sa.meta.uid == s.clock
             || (sa.meta.name in s.accounts && s.accounts[sa.meta.name].meta.uid == sa.meta.uid
                 && Managed(s.accounts[sa.meta.name]) == Managed(sa))
    ensures AccountsOk(PutAccount(s, sa))
  {
    if sa.meta.uid != s.clock {
      assert s.accounts[sa.meta.name] in s.accountsSeen;
    }
    forall a | a in s.accountsSeen && a.meta.uid == sa.meta.uid
      ensures a.meta.name == sa.meta.name && Managed(a) == Managed(sa)
    {
      SameUidSameAccount(s, sa, a);
    }
  }

  lemma AccountStoredUids(s: State, sa: ServiceAccount)
    requires Inv(s)
    requires sa.meta.uid == s.clock
             || (sa.meta.name in s.accounts && s.accounts[sa.meta.name].meta.uid == sa.meta.uid)
    ensures UidsApart(PutAccount(s, sa))
  {
    if sa.meta.uid != s.clock {
      assert s.accounts[sa.meta.name] in s.accountsSeen;
    }
  }

  lemma BindingStored(s: State, b: RoleBinding)
    requires Inv(s) && b.meta.version == s.clock && BindingShape(s, b)
    requires b.meta.uid == s.clock
             || (b.meta.name in s.bindings && s.bindings[b.meta.name].meta.uid == b.meta.uid)
    ensures Inv(PutBinding(s, b))
  {
    if b.meta.uid != s.clock {
      assert s.bindings[b.meta.name] in s.bindingsSeen;
    }
    BindingStoredBindings(s, b);
    BindingStoredUids(s, b);
    BindingStoredShapes(s, b);
  }

  lemma BindingStoredBindings(s: State, b: RoleBinding)
    requires BindingsOk(s) && b.meta.version == s.clock && s.clock > 0
    requires b.meta.uid == s.clock || exists x :: x in s.bindingsSeen && x.meta.uid == b.meta.uid
    ensures BindingsOk(PutBinding(s, b))
  {
  }

  lemma BindingStoredShapes(s: State, b: RoleBinding)
    requires Shapes(s) && BindingShape(s, b)
    ensures Shapes(PutBinding(s, b))
  {
    var s' := PutBinding(s, b);
    ShapesGrow(s, s');
    assert BindingShape(s', b);
  }

  lemma BindingStoredUids(s: State, b: RoleBinding)
    requires Inv(s)
    requires b.meta.uid == s.clock || exists x :: x in s.bindingsSeen && x.meta.uid == b.meta.uid
    ensures UidsApart(PutBinding(s, b))
  {
  }

  lemma AdapterStored(s: State, d: Adapter)
    requires Inv(s) && d.meta.version == s.clock && AdapterShape(s, d)
    requires d.meta.uid == s.clock
             || (AdapterKey(d.backend, d.meta.name) in s.adapters
                 && s.adapters[AdapterKey(d.backend, d.meta.name)].meta.uid == d.meta.uid)
    ensures Inv(PutAdapter(s, d))
  {
    if d.meta.uid != s.clock {
      assert s.adapters[AdapterKey(d.backend, d.meta.name)] in s.adaptersSeen;
    }
    AdapterStoredAdapters(s, d);
    AdapterStoredUids(s, d);
    AdapterStoredShapes(s, d);
  }

  lemma AdapterStoredAdapters(s: State, d: Adapter)
    requires AdaptersOk(s) && d.meta.version == s.clock && s.clock > 0
    requires d.meta.uid == s.clock || exists x :: x in s.adaptersSeen && x.meta.uid == d.meta.uid
    ensures AdaptersOk(PutAdapter(s, d))
  {
  }

  lemma AdapterStoredShapes(s: State, d: Adapter)
    requires Shapes(s) && AdapterShape(s, d)
    ensures Shapes(PutAdapter(s, d))
  {
    var s' := PutAdapter(s, d);
    ShapesGrow(s, s');
    assert AdapterShape(s', d);
  }

  lemma AdapterStoredUids(s: State, d: Adapter)
    requires Inv(s)
    requires d.meta.uid == s.clock || exists x :: x in s.adaptersSeen && x.meta.uid == d.meta.uid
    ensures UidsApart(PutAdapter(s, d))
  {
  }

  lemma ReturnKeeps(s: State, rcl: Instance, sa: ServiceAccount)
    requires Inv(s) && ReturnedOk(s, rcl, sa)
    ensures Inv(Return(s, rcl, sa))
  {
    ShapesGrow(s, Return(s, rcl, sa));
  }

  lemma RemovalKeeps(s: State, s': State)
    requires Inv(s)
    requires s' == s.(instances := s'.instances, accounts := s'.accounts, bindings := s'.bindings, adapters := s'.adapters)
    requires forall k :: k in s'.instances ==> k in s.instances && s'.instances[k] == s.instances[k]
    requires forall n :: n in s'.accounts ==> n in s.accounts && s'.accounts[n] == s.accounts[n]
    requires forall n :: n in s'.bindings ==> n in s.bindings && s'.bindings[n] == s.bindings[n]
    requires forall k :: k in s'.adapters ==> k in s.adapters && s'.adapters[k] == s.adapters[k]
    ensures Inv(s')
  {
    ShapesGrow(s, s');
  }

  // ------------------------------------------------------- the account's steps

  /** The owners that a reconcile desires refer to listed instances. */
  lemma DesiredOwnersOk(s: State, rcl: Instance, listed: seq<Instance>)
    requires Inv(s) && rcl in s.instancesSeen && CanList(s, rcl, listed)
    ensures var d := DesiredAccount(rcl, AccountOwners(rcl, listed));
            && DistinctKeys(d.meta.owners)
            && forall r :: r in d.meta.owners ==>
                 RefersToInstance(s, r) && r.uid != 0 && r.apiVersion != "" && r.kind != "" && r.name != ""
                 && r.controller.Some?
  {
    var owners := AccountOwners(rcl, listed);
    DesiredAccountShape(rcl, owners);
    SortByNameSameMembers(listed);
    SortByNameDistinct(listed);
    forall r | r in OwnerRefs(owners)
      ensures RefersToInstance(s, r) && r.uid != 0 && r.apiVersion != "" && r.kind != "" && r.name != ""
              && r.controller.Some?
    {
      var j :| 0 <= j < |owners| && OwnerRefs(owners)[j] == r;
      assert owners[j] in owners;
      assert owners[j] in s.instancesSeen;
    }
    forall i, j | 0 <= i < j < |owners|
      ensures OwnerKey(OwnerRefs(owners)[i]) != OwnerKey(OwnerRefs(owners)[j])
    {
      assert InstanceKey(owners[i]) != InstanceKey(owners[j]);
    }
  }

  lemma MergedOwnersOk(s: State, current: seq<OwnerReference>, desired: seq<OwnerReference>, merged: seq<OwnerReference>)
    requires Lists(merged, Merged(current, desired)) && desired != []
    requires forall r :: r in current || r in desired ==> RefersToInstance(s, r)
    ensures merged != [] && DistinctKeys(merged) && forall r :: r in merged ==> RefersToInstance(s, r)
  {
    forall r | r in merged
      ensures RefersToInstance(s, r)
    {
      ByKeyHolds(current, OwnerKey(r));
      ByKeyHolds(desired, OwnerKey(r));
    }
    ByKeyHolds(desired, OwnerKey(desired[0]));
    assert desired[0] in desired;
    assert OwnerKey(desired[0]) in Merged(current, desired);
  }

  /** When an update is sent: for an account that differs, and that carries the
      label by which the controller knows its own. */
  lemma UpdatesExactlyManagedAccounts(desired: ServiceAccount, cached: ServiceAccount, merged: seq<OwnerReference>)
    ensures PlanSync(desired, cached, merged).Update? <==>
            && !AccountEqual(desired, cached) && "app.kubernetes.io/managed-by" in cached.meta.labels
            && cached.meta.labels["app.kubernetes.io/managed-by"] == "triggermesh-controller"
  {
  }

  /** An update sent by syncAdapterServiceAccount is for a managed account and
      stays managed, with the cached secrets and the merged owners. */
  lemma PlannedUpdate(rcl: Instance, owners: seq<Instance>, cached: ServiceAccount, merged: seq<OwnerReference>)
    requires PlanSync(DesiredAccount(rcl, owners), cached, merged).Update?
    ensures var u := PlanSync(DesiredAccount(rcl, owners), cached, merged).account;
            && Managed(cached) && Managed(u) && u.meta.owners == merged
            && u.meta.name == DesiredAccount(rcl, owners).meta.name && u.meta.version == cached.meta.version
            && u.secrets == cached.secrets && u.imagePullSecrets == cached.imagePullSecrets
            && (|merged| > 1 ==> u.meta.labels == cached.meta.labels && u.meta.annotations == cached.meta.annotations)
            && (|merged| <= 1 ==> u.meta.labels == DesiredAccount(rcl, owners).meta.labels
                                  && u.meta.annotations == DesiredAccount(rcl, owners).meta.annotations)
  {
    DesiredAccountShape(rcl, owners);
  }

  lemma CreateAccountKeeps(s: State, rcl: Instance, listed: seq<Instance>)
    requires Inv(s) && Enabled(s, CreateAccount(rcl, listed))
    ensures Inv(Apply(s, CreateAccount(rcl, listed)))
  {
    var owners := AccountOwners(rcl, listed);
    var d := DesiredAccount(rcl, owners);
    var sa := d.(meta := Stamp(d.meta, s.clock, s.clock));
    DesiredOwnersOk(s, rcl, listed);
    DesiredAccountShape(rcl, owners);
    AccountStored(s, sa);
    AccountNameIgnoresOwners(rcl, owners, []);
    ReturnKeeps(PutAccount(s, sa), rcl, sa);
  }

  /** The stored account that an accepted update replaces is the cached one. */
  lemma AcceptedUpdateIsOfCached(s: State, cached: ServiceAccount, u: ServiceAccount)
    requires Inv(s) && cached in s.accountsSeen && u.meta.version == cached.meta.version && AcceptsAccount(s, u)
    ensures s.accounts[u.meta.name] == cached
  {
    assert s.accounts[u.meta.name] in s.accountsSeen;
  }

  lemma SyncAccountKeeps(s: State, rcl: Instance, listed: seq<Instance>, cached: ServiceAccount, merged: seq<OwnerReference>)
    requires Inv(s) && Enabled(s, SyncAccount(rcl, listed, cached, merged))
    ensures Inv(Apply(s, SyncAccount(rcl, listed, cached, merged)))
  {
    var owners := AccountOwners(rcl, listed);
    var d := DesiredAccount(rcl, owners);
    AccountNameIgnoresOwners(rcl, owners, []);
    match PlanSync(d, cached, merged)
    case Keep => ReturnKeeps(s, rcl, cached);
    case Update(u) =>
      if AcceptsAccount(s, u) {
        PlannedUpdate(rcl, owners, cached, merged);
        AcceptedUpdateIsOfCached(s, cached, u);
        DesiredOwnersOk(s, rcl, listed);
        DesiredAccountShape(rcl, owners);
        assert AccountShape(s, cached);
        MergedOwnersOk(s, cached.meta.owners, d.meta.owners, merged);
        AccountStored(s, UpdatedAccount(s, u));
        ReturnKeeps(PutAccount(s, UpdatedAccount(s, u)), rcl, UpdatedAccount(s, u));
      }
  }

  // ---------------------------------------------------- the dependents' steps

  lemma DesiredBindingOk(s: State, rcl: Instance, sa: ServiceAccount, role: BindingRole)
    requires Inv(s) && (rcl, sa) in s.returned && (role.MultiTenantAdapter? ==> rcl.multiTenant)
    ensures BindingShape(s, DesiredBinding(rcl, sa, role))
  {
    var b := DesiredBinding(rcl, sa, role);
    assert ReturnedOk(s, rcl, sa);
    assert BoundTo(sa, b);
    if role.MultiTenantAdapter? {
      assert CanStore(s, rcl);
      SharedAccountIsTheSameForAll(rcl, rcl, []);
      assert IsSharedName(b.meta.name);
    }
  }

  lemma DesiredAdapterOk(s: State, rcl: Instance, owner: Option<ServiceAccount>, d: Adapter)
    requires Inv(s) && rcl in s.instancesSeen && (owner.Some? ==> (rcl, owner.value) in s.returned)
    requires AdapterOwnersOf(rcl, owner, d)
    ensures AdapterShape(s, d)
  {
    if rcl.multiTenant {
      assert ReturnedOk(s, rcl, owner.value);
    }
  }

  lemma {:induction false} LiveOwnersAreOwners(s: State, owners: seq<OwnerReference>)
    ensures forall r :: r in LiveOwners(s, owners) <==> r in owners && UidIsLive(s, r.uid)
    ensures DistinctKeys(owners) ==> DistinctKeys(LiveOwners(s, owners))
  {
    if owners != [] {
      var init, last := owners[..|owners| - 1], owners[|owners| - 1];
      assert owners == init + [last];
      LiveOwnersAreOwners(s, init);
      var kept := LiveOwners(s, init);
      if DistinctKeys(owners) {
        assert DistinctKeys(init);
        forall i | 0 <= i < |kept|
          ensures OwnerKey(kept[i]) != OwnerKey(last)
        {
          assert kept[i] in init;
        }
      }
    }
  }

  lemma PruneKeeps(s: State, n: string)
    requires Inv(s) && Enabled(s, PruneAccount(n))
    ensures Inv(Apply(s, PruneAccount(n)))
  {
    var sa := s.accounts[n];
    assert AccountShape(s, sa);
    LiveOwnersAreOwners(s, sa.meta.owners);
    AccountStored(s, sa.(meta := sa.meta.(version := s.clock, owners := LiveOwners(s, sa.meta.owners))));
  }

  lemma SyncBindingKeeps(s: State, rcl: Instance, sa: ServiceAccount, role: BindingRole, cached: RoleBinding)
    requires Inv(s) && Enabled(s, SyncBinding(rcl, sa, role, cached))
    ensures Inv(Apply(s, SyncBinding(rcl, sa, role, cached)))
  {
    var d := DesiredBinding(rcl, sa, role);
    var update := d.(meta := d.meta.(version := cached.meta.version));
    DesiredBindingOk(s, rcl, sa, role);
    if !BindingEqual(d, cached) && AcceptsBinding(s, update) {
      var b := update.(meta := Stamp(update.meta, s.bindings[update.meta.name].meta.uid, s.clock));
      assert forall a :: BoundTo(a, d) ==> BoundTo(a, b);
      BindingStored(s, b);
    }
  }

  lemma SyncAdapterKeeps(s: State, rcl: Instance, owner: Option<ServiceAccount>, d: Adapter, cached: Adapter, defaults: Adapter)
    requires Inv(s) && Enabled(s, SyncAdapter(rcl, owner, d, cached, defaults))
    ensures Inv(Apply(s, SyncAdapter(rcl, owner, d, cached, defaults)))
  {
    var named := d.(meta := d.meta.(name := cached.meta.name));
    var update := AdapterUpdate(d, cached);
    DesiredAdapterOk(s, rcl, owner, d);
    if !AdapterEqual(named, cached) && AcceptsAdapter(s, update) {
      var stored := Fill(update, defaults);
      AdapterStored(s, stored.(meta := Stamp(stored.meta,
        s.adapters[AdapterKey(update.backend, update.meta.name)].meta.uid, s.clock)));
    }
  }

  lemma InstanceStepKeeps(s: State, e: Event)
    requires Inv(s) && Enabled(s, e) && (e.CreateInstance? || e.EditInstance?)
    ensures Inv(Apply(s, e))
  {
    var i := e.instance;
    if e.EditInstance? {
      assert s.instances[InstanceKey(i)] in s.instancesSeen;
    }
    InstanceStored(s, i, Apply(s, e));
  }

  /** The steps of users and of the garbage collector. */
  lemma OutsideStepKeepsInv(s: State, e: Event)
    requires Inv(s) && Enabled(s, e) && !IsReconcilerStep(e)
    ensures Inv(Apply(s, e))
  {
    if e.CreateInstance? || e.EditInstance? {
      InstanceStepKeeps(s, e);
    } else if e.CreateExternalAccount? {
      AccountStored(s, e.account);
    } else if e.ReplaceSecrets? {
      ReplaceSecretsKeeps(s, e.name, e.secrets, e.imagePullSecrets);
    } else if e.PruneAccount? {
      PruneKeeps(s, e.name);
    } else {
      RemovalKeeps(s, Apply(s, e));
    }
  }

  lemma ReplaceSecretsKeeps(s: State, n: string, secrets: seq<string>, pull: seq<string>)
    requires Inv(s) && Enabled(s, ReplaceSecrets(n, secrets, pull))
    ensures Inv(Apply(s, ReplaceSecrets(n, secrets, pull)))
  {
    var sa := s.accounts[n];
    assert AccountShape(s, sa);
    AccountStored(s, ServiceAccount(sa.meta.(version := s.clock), secrets, pull));
  }

  lemma CreateBindingKeeps(s: State, rcl: Instance, sa: ServiceAccount, role: BindingRole)
    requires Inv(s) && Enabled(s, CreateBinding(rcl, sa, role))
    ensures Inv(Apply(s, CreateBinding(rcl, sa, role)))
  {
    var d := DesiredBinding(rcl, sa, role);
    DesiredBindingOk(s, rcl, sa, role);
    var b := d.(meta := Stamp(d.meta, s.clock, s.clock));
    assert forall a :: BoundTo(a, d) ==> BoundTo(a, b);
    BindingStored(s, b);
  }

  lemma CreateAdapterKeeps(s: State, rcl: Instance, owner: Option<ServiceAccount>, d: Adapter, defaults: Adapter)
    requires Inv(s) && Enabled(s, CreateAdapter(rcl, owner, d, defaults))
    ensures Inv(Apply(s, CreateAdapter(rcl, owner, d, defaults)))
  {
    DesiredAdapterOk(s, rcl, owner, d);
    var stored := Fill(d, defaults);
    AdapterStored(s, stored.(meta := Stamp(stored.meta, s.clock, s.clock)));
  }

  lemma DependentStepKeeps(s: State, e: Event)
    requires Inv(s) && Enabled(s, e)
    requires e.CreateBinding? || e.SyncBinding? || e.CreateAdapter? || e.SyncAdapter?
    ensures Inv(Apply(s, e))
  {
    if e.CreateBinding? {
      CreateBindingKeeps(s, e.rcl, e.sa, e.role);
    } else if e.SyncBinding? {
      SyncBindingKeeps(s, e.rcl, e.sa, e.role, e.cachedBinding);
    } else if e.CreateAdapter? {
      CreateAdapterKeeps(s, e.rcl, e.owner, e.desired, e.defaults);
    } else {
      SyncAdapterKeeps(s, e.rcl, e.owner, e.desired, e.cachedAdapter, e.defaults);
    }
  }

  /** Every step of a reconciler, a user or the collector keeps the invariant. */
  lemma StepKeepsInv(s: State, e: Event)
    requires Inv(s) && Enabled(s, e)
    ensures Inv(Apply(s, e))
  {
    if e.CreateAccount? {
      CreateAccountKeeps(s, e.rcl, e.listed);
    } else if e.SyncAccount? {
      SyncAccountKeeps(s, e.rcl, e.listed, e.cachedAccount, e.merged);
    } else if IsReconcilerStep(e) {
      DependentStepKeeps(s, e);
    } else {
      OutsideStepKeepsInv(s, e);
    }
  }

  lemma {:induction false} RunKeepsInv(s: State, events: seq<Event>)
    requires Inv(s) && IsRun(s, events)
    ensures Inv(After(s, events))
    decreases |events|
  {
    if events != [] {
      StepKeepsInv(s, events[0]);
      RunKeepsInv(Apply(s, events[0]), events[1..]);
    }
  }

  lemma NamesAreLonger(a: string, b: string)
    ensures |a + b| == |a| + |b|
  {
  }

  /** Every binding that was ever stored grants the role that its name stands
      for to the account that owns it. */
  lemma BindingsGrantTheirRoles(events: seq<Event>, b: RoleBinding)
    requires IsRun(INITIAL, events) && b in After(INITIAL, events).bindingsSeen
    ensures b.meta.name == b.subject + "-config-watcher" || b.meta.name == b.subject
    ensures b.meta.name == b.subject + "-config-watcher" ==> b.roleName == "triggermesh-config-watcher"
    ensures b.meta.name == b.subject ==>
              b.roleName == b.meta.name && exists kind :: b.roleName == ToLower(kind) + "-adapter"
    ensures |b.meta.owners| == 1 && b.meta.owners[0].kind == "ServiceAccount" && b.meta.owners[0].name == b.subject
            && b.meta.owners[0].apiVersion == "v1" && b.meta.owners[0].controller == Some(true)
  {
    ReachableStatesSatisfyInv(events);
    assert BindingShape(After(INITIAL, events), b);
    NamesAreLonger(b.subject, "-config-watcher");
  }

  /** The invariant holds after any run from the empty namespace. */
  lemma ReachableStatesSatisfyInv(events: seq<Event>)
    requires IsRun(INITIAL, events)
    ensures Inv(After(INITIAL, events))
  {
    RunKeepsInv(INITIAL, events);
  }
}
