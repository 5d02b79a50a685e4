/** The reconciler: it reads informer caches, mutates desired objects in place
    and calls the API server. Each method is shown to be a run of the cluster
    machine, so what holds over all runs holds of any interleaving of these
    methods. */
module Reconciler {
  import opened Wrappers
  import opened Objects
  import opened Owners
  import opened Components
  import opened Text
  import opened Semantic
  import opened AdapterLookup
  import opened Cluster
  import opened ApiServer
  import opened RbacObjects
  import opened AdapterBuilder
  import AdapterOptions
  import AdapterAgreement
  import Fixpoint

  datatype ReconcileError =
    | Api(e: ApiError)
    | NilAccount // the account of a multi-tenant adapter is dereferenced but nil

  /** What the reconciler may rely on: its instance and the listed ones were
      stored at some time. */
  ghost predicate CanReconcile(s: State, rcl: Instance, listed: seq<Instance>)
  {
    rcl in s.instancesSeen && CanList(s, rcl, listed)
  }

  /** Nothing that was recorded is forgotten. */
  ghost predicate Grows(s: State, s': State)
  {
    && s.instancesSeen <= s'.instancesSeen && s.accountsSeen <= s'.accountsSeen
    && s.bindingsSeen <= s'.bindingsSeen && s.adaptersSeen <= s'.adaptersSeen && s.returned <= s'.returned
  }

  ghost predicate Runs(s: State, events: seq<Event>, s': State)
  {
    IsRun(s, events) && After(s, events) == s'
  }

  lemma RunsNothing(s: State)
    ensures Runs(s, [], s)
  {
  }

  lemma RunsOne(s: State, e: Event)
    requires Enabled(s, e)
    ensures Runs(s, [e], Apply(s, e))
  {
    RunOfOne(s, e);
  }

  lemma RunsThen(s: State, first: seq<Event>, t: State, second: seq<Event>, u: State)
    requires Runs(s, first, t) && Runs(t, second, u)
    ensures Runs(s, first + second, u)
  {
    RunsCompose(s, first, second);
  }

  /** What syncAdapterServiceAccount returns. */
  function SyncResult(s: State, desired: ServiceAccount, current: ServiceAccount, merged: seq<OwnerReference>)
    : Result<ServiceAccount, ApiError>
  {
    match PlanSync(desired, current, merged)
    case Keep => Success(current)
    case Update(u) =>
      if AcceptsAccount(s, u) then Success(UpdatedAccount(s, u))
      else Failure(if u.meta.name in s.accounts then Conflict else NotFound)
  }

  ghost predicate IsReturned(s: State, rcl: Instance, sa: ServiceAccount)
  {
    (rcl, sa) in s.returned && sa in s.accountsSeen
  }

  lemma SyncIsAStep(s: State, rcl: Instance, listed: seq<Instance>, current: ServiceAccount, merged: seq<OwnerReference>)
    requires CanReconcile(s, rcl, listed) && AccountOwners(rcl, listed) != []
    requires current in s.accountsSeen && current.meta.name == DesiredAccount(rcl, AccountOwners(rcl, listed)).meta.name
    requires Lists(merged, Merged(current.meta.owners, DesiredAccount(rcl, AccountOwners(rcl, listed)).meta.owners))
    ensures var desired := DesiredAccount(rcl, AccountOwners(rcl, listed));
            var s' := ApplySyncAccount(s, rcl, desired, current, merged);
            var r := SyncResult(s, desired, current, merged);
            && Runs(s, [Event.SyncAccount(rcl, listed, current, merged)], s') && Grows(s, s')
            && (r.Success? ==> IsReturned(s', rcl, r.value) && r.value.meta.name == desired.meta.name)
  {
    RunsOne(s, Event.SyncAccount(rcl, listed, current, merged));
    DesiredAccountShape(rcl, AccountOwners(rcl, listed));
  }

  ghost predicate CanBind(s: State, rcl: Instance, sa: ServiceAccount, role: BindingRole)
  {
    (rcl, sa) in s.returned && (role.MultiTenantAdapter? ==> rcl.multiTenant)
  }

  /** The binding grants the role, to the account that owns it. */
  predicate GrantsRole(b: RoleBinding, rcl: Instance, sa: ServiceAccount, role: BindingRole)
  {
    && b.meta.owners == [OwnerReference("v1", "ServiceAccount", sa.meta.name, sa.meta.uid, Some(true))]
    && b.subject == sa.meta.name
    && b.roleName == match role
                     case ConfigWatcher => "triggermesh-config-watcher"
                     case MultiTenantAdapter => ToLower(rcl.kind) + "-adapter"
  }

  /** A sync sends nothing exactly when the binding grants the role already, and
      what it stores does. */
  lemma SyncedBindingGrants(s: State, rcl: Instance, sa: ServiceAccount, role: BindingRole, current: RoleBinding)
    ensures GrantsRole(current, rcl, sa, role) <==> BindingEqual(DesiredBinding(rcl, sa, role), current)
    ensures var d := DesiredBinding(rcl, sa, role);
            var t := ApplySyncBinding(s, d, current);
            && (GrantsRole(current, rcl, sa, role) ==> t == s)
            && (t != s ==> d.meta.name in t.bindings && GrantsRole(t.bindings[d.meta.name], rcl, sa, role))
  {
    SharedNameText(rcl.kind);
  }

  function BindingUpdate(desired: RoleBinding, current: RoleBinding): RoleBinding
  {
    desired.(meta := desired.meta.(version := current.meta.version))
  }

  function CreatedBinding(s: State, desired: RoleBinding): RoleBinding
  {
    desired.(meta := Stamp(desired.meta, s.clock, s.clock))
  }

  /** A sync right after the creation finds nothing to do. */
  lemma CreatedAccountIsKept(s: State, rcl: Instance, owners: seq<Instance>, merged: seq<OwnerReference>)
    ensures var d := DesiredAccount(rcl, owners);
            var t := ApplyCreateAccount(s, rcl, d);
            d.meta.name in t.accounts && PlanSync(d, t.accounts[d.meta.name], merged).Keep?
            && ApplySyncAccount(t, rcl, d, t.accounts[d.meta.name], merged) == t
  {
    var d := DesiredAccount(rcl, owners);
    var created := d.(meta := Stamp(d.meta, s.clock, s.clock));
    DesiredAccountShape(rcl, owners);
    Fixpoint.DesiredBelowOwnRewrite(d, created);
    assert (rcl, created) in ApplyCreateAccount(s, rcl, d).returned;
  }

  lemma SecondNameIsUntouched(s: State, rcl: Instance, sa: ServiceAccount)
    ensures var n := DesiredBinding(rcl, sa, MultiTenantAdapter).meta.name;
            var t := Fixpoint.FreshBinding(s, rcl, sa, ConfigWatcher);
            (n in t.bindings <==> n in s.bindings) && (n in s.bindings ==> t.bindings[n] == s.bindings[n])
  {
    BindingNamesAreSeparate(sa.meta.name, rcl.kind);
  }

  ghost predicate CanAdapt(s: State, rcl: Instance, owner: Option<ServiceAccount>, desired: Adapter)
  {
    rcl in s.instancesSeen && (owner.Some? ==> (rcl, owner.value) in s.returned) && AdapterOwnersOf(rcl, owner, desired)
  }

  /** The adapter was found, or created, for the owner of the desired one. */
  predicate CanSync(rcl: Instance, desired: Adapter, current: Adapter)
    requires desired.meta.owners != []
  {
    && current.backend == desired.backend && ControlledBy(current, desired.meta.owners[0].uid)
    && (HasLabels(current.meta.labels, LookupLabels(rcl)) || current.meta.name == desired.meta.name)
  }

  lemma BindingSyncIsAStep(s: State, rcl: Instance, sa: ServiceAccount, role: BindingRole, current: RoleBinding)
    requires CanBind(s, rcl, sa, role) && current in s.bindingsSeen
    requires current.meta.name == DesiredBinding(rcl, sa, role).meta.name
    ensures var s' := ApplySyncBinding(s, DesiredBinding(rcl, sa, role), current);
            Runs(s, [Event.SyncBinding(rcl, sa, role, current)], s') && Grows(s, s')
  {
    RunsOne(s, Event.SyncBinding(rcl, sa, role, current));
  }

  lemma AdapterCreationIsAStep(s: State, rcl: Instance, owner: Option<ServiceAccount>, desired: Adapter, defaults: Adapter)
    requires CanAdapt(s, rcl, owner, desired) && AdapterKey(desired.backend, desired.meta.name) !in s.adapters
    ensures var created := Fixpoint.CreatedAdapter(s, desired, defaults);
            var s' := PutAdapter(s, created);
            && Runs(s, [Event.CreateAdapter(rcl, owner, desired, defaults)], s') && Grows(s, s')
            && CanSync(rcl, desired, created)
  {
    RunsOne(s, Event.CreateAdapter(rcl, owner, desired, defaults));
  }

  /** With a fresh cache the adapter is placed in one go. */
  ghost predicate PlacesFresh(s: State, cached: seq<Adapter>, desired: Adapter, found: Option<AdapterKey>, defaults: Adapter,
                              u: State)
  {
    AdaptersAreFreshIn(s, cached) && CanPlace(s, desired, found) ==>
      (found.Some? ==> found.value in s.adapters) && u == Fixpoint.FreshAdapter(s, desired, found, defaults)
  }

  /** Finding or creating an adapter and syncing it, from a fresh cache. */
  lemma StepsFromFreshAdapters(s: State, cached: seq<Adapter>, rcl: Instance, desired: Adapter, current: Adapter,
                               t: State, u: State, defaults: Adapter)
    requires desired.meta.owners != []
    requires var a := Lookup(cached, rcl, desired.meta.owners[0].uid);
             if a.Some? then current == a.value && t == s
             else current == Fixpoint.CreatedAdapter(s, desired, defaults) && t == PutAdapter(s, current)
    requires u == ApplySyncAdapter(t, desired, current, defaults)
    ensures PlacesFresh(s, cached, desired, Fixpoint.FoundKey(cached, rcl, desired.meta.owners[0].uid), defaults, u)
  {
  }

  /** `t` results from one reconcile of `rcl` with fresh caches. */
  ghost predicate IsFreshReconcile(s: State, t: State, rcl: Instance, owners: seq<Instance>, merged: seq<OwnerReference>,
                                   built: Adapter, found: Option<AdapterKey>, defaults: Adapter)
  {
    && Fixpoint.MergesFresh(s, DesiredAccount(rcl, owners), merged)
    && (found.Some? ==> found.value in s.adapters)
    && t == Fixpoint.FreshReconcile(s, rcl, DesiredAccount(rcl, owners), merged, built, found, defaults)
  }

  /** The adapter was looked up in the cache, for the owner that the reconciled
      account gives it. */
  ghost predicate LooksUp(accounts: map<string, ServiceAccount>, listed: seq<Adapter>, rcl: Instance,
                          owners: seq<Instance>, found: Option<AdapterKey>)
  {
    var n := DesiredAccount(rcl, owners).meta.name;
    n in accounts && found == Fixpoint.FoundKey(listed, rcl, Fixpoint.AdapterOwnerUid(rcl, accounts[n]))
  }

  /** The RBAC objects and then the adapter make one fresh reconcile. */
  lemma StepsMakeAReconcile(s: State, rcl: Instance, owners: seq<Instance>, merged: seq<OwnerReference>, built: Adapter,
                            found: Option<AdapterKey>, defaults: Adapter, t: State, sa: ServiceAccount)
    requires t == Fixpoint.FreshRbac(s, rcl, DesiredAccount(rcl, owners), merged)
    requires DesiredAccount(rcl, owners).meta.name in t.accounts && sa == t.accounts[DesiredAccount(rcl, owners).meta.name]
    requires Fixpoint.MergesFresh(s, DesiredAccount(rcl, owners), merged) && (found.Some? ==> found.value in s.adapters)
    ensures IsFreshReconcile(s, Fixpoint.FreshAdapter(t, Fixpoint.OwnedAdapter(rcl, built, sa), found, defaults),
                             rcl, owners, merged, built, found, defaults)
  {
  }

  lemma AdapterSyncIsAStep(s: State, rcl: Instance, owner: Option<ServiceAccount>, desired: Adapter, current: Adapter,
                           defaults: Adapter)
    requires CanAdapt(s, rcl, owner, desired) && current in s.adaptersSeen && CanSync(rcl, desired, current)
    ensures var s' := ApplySyncAdapter(s, desired, current, defaults);
            Runs(s, [Event.SyncAdapter(rcl, owner, desired, current, defaults)], s') && Grows(s, s')
  {
    RunsOne(s, Event.SyncAdapter(rcl, owner, desired, current, defaults));
  }

  ghost predicate AccountIsFreshIn(s: State, cached: map<string, ServiceAccount>, n: string)
  {
    && (n in cached <==> n in s.accounts)
    && (n in cached ==> cached[n] == s.accounts[n])
  }

  /** Getting or creating an account and syncing it, from a fresh cache. */
  lemma StepsFromFreshAccount(s: State, rcl: Instance, owners: seq<Instance>, current: ServiceAccount, t: State,
                              merged: seq<OwnerReference>)
    requires var d := DesiredAccount(rcl, owners);
             && Lists(merged, Merged(current.meta.owners, d.meta.owners)) && current.meta.name == d.meta.name
             && (d.meta.name in s.accounts ==> current == s.accounts[d.meta.name] && t == s)
             && (d.meta.name !in s.accounts ==> t == ApplyCreateAccount(s, rcl, d) && current == t.accounts[d.meta.name])
    ensures var d := DesiredAccount(rcl, owners);
            var u := ApplySyncAccount(t, rcl, d, current, merged);
            && Fixpoint.MergesFresh(s, d, merged) && u == Fixpoint.FreshAccount(s, rcl, d, merged)
            && d.meta.name in u.accounts && SyncResult(t, d, current, merged) == Success(u.accounts[d.meta.name])
  {
    if DesiredAccount(rcl, owners).meta.name !in s.accounts {
      CreatedAccountIsKept(s, rcl, owners, merged);
    }
  }

  /** The adapter cache holds what is stored, for its backend. */
  ghost predicate AdaptersAreFreshIn(s: State, cached: seq<Adapter>)
  {
    forall a :: a in cached ==>
                  AdapterKey(a.backend, a.meta.name) in s.adapters && s.adapters[AdapterKey(a.backend, a.meta.name)] == a
  }

  /** An adapter that has to be created finds its name free. */
  predicate CanPlace(s: State, desired: Adapter, found: Option<AdapterKey>)
  {
    found.Some? || AdapterKey(desired.backend, desired.meta.name) !in s.adapters
  }

  /** What the builder of the instance makes. */
  function BuiltAdapter(backend: Backend, rcl: Instance, namespace: string, sink: string, extra: seq<ObjectOption>): Adapter
  {
    if rcl.multiTenant then AdapterOptions.SharedAdapter(backend, rcl, namespace, extra)
    else AdapterOptions.InstanceAdapter(backend, rcl, namespace, sink, extra)
  }

  lemma BuiltCanBeReconciled(backend: Backend, rcl: Instance, namespace: string, sink: string, extra: seq<ObjectOption>)
    requires AdapterAgreement.NoController(extra)
    ensures var a := BuiltAdapter(backend, rcl, namespace, sink, extra);
            a.backend == backend && a.meta.version == 0 && (!rcl.multiTenant ==> a.meta.owners == [InstanceRef(rcl, true)])
  {
    if rcl.multiTenant {
      AdapterAgreement.BuiltIdentity(backend, rcl, MTAdapterObjectName(rcl.kind),
                                     AdapterOptions.SharedOptions(namespace) + extra);
    } else {
      AdapterAgreement.BuiltIdentity(backend, rcl, ChildName(ComponentName(rcl.kind) + "-", rcl.name),
                                     AdapterOptions.InstanceOptions(backend, rcl, namespace, sink) + extra);
      AdapterAgreement.InstanceAdapterOwner(backend, rcl, namespace, sink, extra);
    }
  }

  /** The lister holds the stored adapters of a backend, in some order. */
  ghost predicate ListsAdapters(s: State, listed: seq<Adapter>, backend: Backend)
  {
    && AdaptersAreFreshIn(s, listed)
    && (forall a :: a in listed ==> a.backend == backend)
    && (forall k :: k in s.adapters && k.backend == backend ==> s.adapters[k] in listed)
  }

  /** What was not given to a call of Reconcile but met by it: the order of the
      merged owners, the lister's adapters, what was found among them, and the
      server's defaults. */
  datatype Call = Call(merged: seq<OwnerReference>, listed: seq<Adapter>, found: Option<AdapterKey>, defaults: Adapter)

  /** What a call of Reconcile with current caches does that does not meet a
      foreign adapter of the name that it creates. */
  ghost predicate Reconciles(s: State, t: State, rcl: Instance, owners: seq<Instance>, built: Adapter, c: Call)
  {
    && owners != [] && DistinctNames(owners) && ListsAdapters(s, c.listed, built.backend)
    && LooksUp(t.accounts, c.listed, rcl, owners, c.found) && CanPlace(s, built, c.found)
    && IsFreshReconcile(s, t, rcl, owners, c.merged, built, c.found, c.defaults)
  }

  lemma StoredUpdateDelivers(desired: Adapter, cached: Adapter, defaults: Adapter, a: Adapter)
    requires var stored := Fill(AdapterUpdate(desired, cached), defaults);
             a == stored.(meta := Stamp(stored.meta, a.meta.uid, a.meta.version))
    ensures Fixpoint.Delivered(desired, a)
  {
    Fixpoint.UpdateDelivers(desired, cached, defaults, a.meta.uid, a.meta.version);
  }

  class Reconciler {
    const server: Server
    const backend: Backend
    var cachedInstances: seq<Instance>
    var cachedAccounts: map<string, ServiceAccount>
    var cachedBindings: map<string, RoleBinding>
    var cachedAdapters: seq<Adapter>

    /** Caches hold copies that were stored, under their names. */
    ghost predicate Valid()
      reads this, server
    {
      && (forall n :: n in cachedAccounts ==> cachedAccounts[n] in server.accountsSeen && cachedAccounts[n].meta.name == n)
      && (forall n :: n in cachedBindings ==> cachedBindings[n] in server.bindingsSeen && cachedBindings[n].meta.name == n)
      && (forall a :: a in cachedAdapters ==> a in server.adaptersSeen && a.backend == backend)
    }

    ghost function State(): State
      reads server
    {
      server.Value()
    }

    constructor (server: Server, backend: Backend)
      ensures this.server == server && this.backend == backend && Valid()
    {
      this.server, this.backend := server, backend;
      cachedInstances, cachedAccounts, cachedBindings, cachedAdapters := [], map[], map[], [];
    }

    // ----------------------------------------------------------- the account

    /** serviceAccountOwners. */
    method ServiceAccountOwners(rcl: Instance) returns (owners: seq<Instance>)
      ensures owners == AccountOwners(rcl, cachedInstances)
    {
      if WantsOwnServiceAccount(rcl) {
        return [rcl];
      }
      owners := SortByName(cachedInstances);
    }

    /** getOrCreateAdapterServiceAccount. */
    method GetOrCreateAccount(rcl: Instance, desired: ServiceAccountObject, ghost listed: seq<Instance>)
      returns (r: Result<ServiceAccount, ApiError>, ghost events: seq<Event>)
      requires Valid() && CanReconcile(State(), rcl, listed) && AccountOwners(rcl, listed) != []
      requires desired.Value() == DesiredAccount(rcl, AccountOwners(rcl, listed))
      modifies server
      ensures Valid() && Grows(old(State()), State()) && Runs(old(State()), events, State())
      ensures desired.name in cachedAccounts ==> r == Success(cachedAccounts[desired.name]) && State() == old(State())
      ensures desired.name !in cachedAccounts && desired.name in old(server.accounts) ==>
                r == Failure(AlreadyExists) && State() == old(State())
      ensures desired.name !in cachedAccounts && desired.name !in old(server.accounts) ==>
                State() == ApplyCreateAccount(old(State()), rcl, desired.Value())
                && r == Success(server.accounts[desired.name])
      ensures r.Success? ==> r.value in server.accountsSeen && r.value.meta.name == desired.name
    {
      ghost var s := State();
      events := [];
      RunsNothing(s);
      if desired.name in cachedAccounts {
        return Success(cachedAccounts[desired.name]), events;
      }
      r := server.CreateAccount(desired.Value());
      if r.Success? {
        server.Record(rcl, r.value);
        events := [Event.CreateAccount(rcl, listed)];
        RunsOne(s, events[0]);
      }
    }

    /** The assignments that syncAdapterServiceAccount makes to the desired
        object before it sends it. */
    method CarryOver(current: ServiceAccount, desired: ServiceAccountObject) returns (ghost merged: seq<OwnerReference>)
      requires !AccountEqual(desired.Value(), current) && Managed(current)
      modifies desired
      ensures Lists(merged, Merged(current.meta.owners, old(desired.owners)))
      ensures PlanSync(old(desired.Value()), current, merged) == Update(desired.Value())
    {
      desired.version := current.meta.version;
      desired.secrets := current.secrets;
      desired.imagePullSecrets := current.imagePullSecrets;
      desired.owners := MergeOwners(current.meta.owners, desired.owners);
      merged := desired.owners;
      if |desired.owners| > 1 {
        desired.annotations := current.meta.annotations;
        desired.labels := current.meta.labels;
      }
    }

    /** syncAdapterServiceAccount. */
    method SyncAccount(rcl: Instance, current: ServiceAccount, desired: ServiceAccountObject, ghost listed: seq<Instance>)
      returns (r: Result<ServiceAccount, ApiError>, ghost events: seq<Event>, ghost merged: seq<OwnerReference>)
      requires Valid() && CanReconcile(State(), rcl, listed) && AccountOwners(rcl, listed) != []
      requires desired.Value() == DesiredAccount(rcl, AccountOwners(rcl, listed))
      requires current in server.accountsSeen && current.meta.name == desired.name
      modifies server, desired
      ensures Valid() && Grows(old(State()), State()) && Runs(old(State()), events, State())
      ensures Lists(merged, Merged(current.meta.owners, old(desired.owners)))
      ensures State() == ApplySyncAccount(old(State()), rcl, old(desired.Value()), current, merged)
      ensures r == SyncResult(old(State()), old(desired.Value()), current, merged)
      ensures r.Success? ==> IsReturned(State(), rcl, r.value) && r.value.meta.name == old(desired.name)
    {
      ghost var s, d := State(), desired.Value();
      MergedKeysMatch(current.meta.owners, desired.owners);
      merged := ListingExists(Merged(current.meta.owners, desired.owners));
      if AccountEqual(desired.Value(), current) {
        server.Record(rcl, current);
        r := Success(current);
      } else if !Managed(current) {
        server.Record(rcl, current);
        r := Success(current);
      } else {
        merged := CarryOver(current, desired);
        r := server.UpdateAccount(desired.Value());
        if r.Success? {
          server.Record(rcl, r.value);
        }
      }
      assert State() == ApplySyncAccount(s, rcl, d, current, merged) && r == SyncResult(s, d, current, merged);
      events := [Event.SyncAccount(rcl, listed, current, merged)];
      assert s.accountsSeen <= server.accountsSeen && s.bindingsSeen == server.bindingsSeen
             && s.adaptersSeen == server.adaptersSeen;
      SyncIsAStep(s, rcl, listed, current, merged);
    }

    // ---------------------------------------------------------- the bindings

    ghost predicate BindingIsFresh(n: string)
      reads this, server
    {
      && (n in cachedBindings <==> n in server.bindings)
      && (n in cachedBindings ==> cachedBindings[n] == server.bindings[n])
    }

    /** getOrCreateAdapterRoleBinding. */
    method GetOrCreateBinding(desired: RoleBindingObject, ghost rcl: Instance, ghost sa: ServiceAccount, ghost role: BindingRole)
      returns (r: Result<RoleBinding, ApiError>, ghost events: seq<Event>)
      requires Valid() && CanBind(State(), rcl, sa, role) && desired.Value() == DesiredBinding(rcl, sa, role)
      modifies server
      ensures Valid() && Grows(old(State()), State()) && Runs(old(State()), events, State())
      ensures desired.name in cachedBindings ==> r == Success(cachedBindings[desired.name]) && State() == old(State())
      ensures desired.name !in cachedBindings && desired.name in old(server.bindings) ==>
                r == Failure(AlreadyExists) && State() == old(State())
      ensures desired.name !in cachedBindings && desired.name !in old(server.bindings) ==>
                r == Success(CreatedBinding(old(State()), desired.Value())) && State() == PutBinding(old(State()), r.value)
      ensures r.Success? ==> r.value in server.bindingsSeen && r.value.meta.name == desired.name
    {
      events := [];
      ghost var s := State();
      RunsNothing(s);
      if desired.name in cachedBindings {
        return Success(cachedBindings[desired.name]), events;
      }
      r := server.CreateBinding(desired.Value());
      if r.Success? {
        events := [Event.CreateBinding(rcl, sa, role)];
        RunsOne(s, events[0]);
      }
    }

    /** syncAdapterRoleBinding. */
    method SyncBinding(current: RoleBinding, desired: RoleBindingObject,
                       ghost rcl: Instance, ghost sa: ServiceAccount, ghost role: BindingRole)
      returns (r: Result<RoleBinding, ApiError>, ghost events: seq<Event>)
      requires Valid() && CanBind(State(), rcl, sa, role) && desired.Value() == DesiredBinding(rcl, sa, role)
      requires current in server.bindingsSeen && current.meta.name == desired.name
      modifies server, desired
      ensures Valid() && Grows(old(State()), State()) && Runs(old(State()), events, State())
      ensures State() == ApplySyncBinding(old(State()), DesiredBinding(rcl, sa, role), current)
      ensures r.Success? <==> BindingEqual(DesiredBinding(rcl, sa, role), current)
                              || AcceptsBinding(old(State()), BindingUpdate(DesiredBinding(rcl, sa, role), current))
    {
      ghost var s := State();
      if desired.owners == current.meta.owners && desired.roleName == current.roleName && desired.subject == current.subject {
        r := Success(current);
      } else {
        ghost var d := desired.Value();
        desired.version := current.meta.version;
        assert desired.Value() == BindingUpdate(d, current) && State() == s;
        r := server.UpdateBinding(desired.Value());
      }
      assert State() == ApplySyncBinding(s, DesiredBinding(rcl, sa, role), current);
      events := [Event.SyncBinding(rcl, sa, role, current)];
      BindingSyncIsAStep(s, rcl, sa, role, current);
    }

    /** Binds an account to a role: the steps that reconcileRBAC takes for each
        of its bindings. */
    method BindAccount(rcl: Instance, sa: ServiceAccount, role: BindingRole)
      returns (err: Option<ApiError>, ghost events: seq<Event>)
      requires Valid() && CanBind(State(), rcl, sa, role)
      modifies server
      ensures Valid() && Grows(old(State()), State()) && Runs(old(State()), events, State())
      ensures OnlyDependentsDiffer(old(State()), State()) && server.adapters == old(server.adapters)
      ensures old(BindingIsFresh(DesiredBinding(rcl, sa, role).meta.name)) ==>
                err.None? && State() == Fixpoint.FreshBinding(old(State()), rcl, sa, role)
    {
      ghost var s := State();
      var desired := NewRoleBinding(rcl, sa, role);
      var current, created := GetOrCreateBinding(desired, rcl, sa, role);
      if current.Failure? {
        return Some(current.error), created;
      }
      ghost var t := State();
      var synced, updates := SyncBinding(current.value, desired, rcl, sa, role);
      RunsThen(s, created, t, updates, State());
      events := created + updates;
      err := if synced.Failure? then Some(synced.error) else None;
    }

    // ------------------------------------------------------------------ RBAC

    /** The steps that reconcileRBAC takes for the account. */
    method ReconcileAccount(rcl: Instance, owners: seq<Instance>, ghost listed: seq<Instance>)
      returns (r: Result<ServiceAccount, ApiError>, ghost events: seq<Event>, ghost merged: seq<OwnerReference>)
      requires Valid() && CanReconcile(State(), rcl, listed) && owners == AccountOwners(rcl, listed) && owners != []
      modifies server
      ensures Valid() && Grows(old(State()), State()) && Runs(old(State()), events, State())
      ensures OnlyAccountsDiffer(old(State()), State())
      ensures r.Success? ==> IsReturned(State(), rcl, r.value) && r.value.meta.name == DesiredAccount(rcl, owners).meta.name
      ensures AccountIsFreshIn(old(State()), cachedAccounts, DesiredAccount(rcl, owners).meta.name) ==>
                && Fixpoint.MergesFresh(old(State()), DesiredAccount(rcl, owners), merged)
                && State() == Fixpoint.FreshAccount(old(State()), rcl, DesiredAccount(rcl, owners), merged)
                && DesiredAccount(rcl, owners).meta.name in server.accounts
                && r == Success(server.accounts[DesiredAccount(rcl, owners).meta.name])
    {
      ghost var s := State();
      merged := [];
      var desired := NewServiceAccount(rcl, owners);
      ghost var d := desired.Value();
      var current, created := GetOrCreateAccount(rcl, desired, listed);
      if current.Failure? {
        return current, created, merged;
      }
      ghost var t := State();
      var synced, updates, order := SyncAccount(rcl, current.value, desired, listed);
      RunsThen(s, created, t, updates, State());
      events := created + updates;
      merged := order;
      r := synced;
      if AccountIsFreshIn(s, cachedAccounts, d.meta.name) {
        StepsFromFreshAccount(s, rcl, owners, current.value, t, merged);
      }
    }

    ghost predicate RbacIsFresh()
      reads this, server
    {
      cachedAccounts == server.accounts && cachedBindings == server.bindings
    }

    /** The steps that reconcileRBAC takes for the bindings. */
    method BindRoles(rcl: Instance, sa: ServiceAccount) returns (err: Option<ApiError>, ghost events: seq<Event>)
      requires Valid() && (rcl, sa) in State().returned
      modifies server
      ensures Valid() && Grows(old(State()), State()) && Runs(old(State()), events, State())
      ensures OnlyDependentsDiffer(old(State()), State()) && server.adapters == old(server.adapters)
      ensures cachedBindings == old(server.bindings) ==>
                err.None? && State() == Fixpoint.BoundRoles(old(State()), rcl, sa)
    {
      ghost var s := State();
      var watched, first := BindAccount(rcl, sa, ConfigWatcher);
      events := first;
      if watched.Some? {
        return watched, events;
      }
      if rcl.multiTenant {
        ghost var t := State();
        SecondNameIsUntouched(s, rcl, sa);
        var shared, second := BindAccount(rcl, sa, MultiTenantAdapter);
        RunsThen(s, first, t, second, State());
        events := first + second;
        if shared.Some? {
          return shared, events;
        }
      }
      err := None;
    }

    /** reconcileRBAC. Without owners there is nothing to reconcile. */
    method ReconcileRbac(rcl: Instance, owners: seq<Instance>, ghost listed: seq<Instance>)
      returns (r: Result<Option<ServiceAccount>, ApiError>, ghost events: seq<Event>, ghost merged: seq<OwnerReference>)
      requires Valid() && CanReconcile(State(), rcl, listed) && owners == AccountOwners(rcl, listed)
      modifies server
      ensures Valid() && Grows(old(State()), State()) && Runs(old(State()), events, State())
      ensures server.adapters == old(server.adapters)
      ensures owners == [] ==> r == Success(None) && State() == old(State())
      ensures owners != [] && r.Success? ==> r.value.Some? && IsReturned(State(), rcl, r.value.value)
                                             && r.value.value.meta.name == DesiredAccount(rcl, owners).meta.name
      ensures owners != [] && old(RbacIsFresh()) ==>
                && Fixpoint.MergesFresh(old(State()), DesiredAccount(rcl, owners), merged)
                && State() == Fixpoint.FreshRbac(old(State()), rcl, DesiredAccount(rcl, owners), merged)
                && DesiredAccount(rcl, owners).meta.name in server.accounts
                && r == Success(Some(server.accounts[DesiredAccount(rcl, owners).meta.name]))
    {
      ghost var s := State();
      events, merged := [], [];
      RunsNothing(s);
      if |owners| == 0 {
        return Success(None), events, merged;
      }
      var sa, first, order := ReconcileAccount(rcl, owners, listed);
      events, merged := first, order;
      if sa.Failure? {
        return Failure(sa.error), events, merged;
      }
      ghost var t := State();
      var err, second := BindRoles(rcl, sa.value);
      RunsThen(s, first, t, second, State());
      events := first + second;
      r := if err.Some? then Failure(err.value) else Success(Some(sa.value));
    }

    // ----------------------------------------------------------- the adapter

    /** getOrCreateAdapter. */
    method GetOrCreateAdapter(rcl: Instance, desired: AdapterObject, defaults: Adapter, ghost owner: Option<ServiceAccount>)
      returns (r: Result<Adapter, ApiError>, ghost events: seq<Event>)
      requires Valid() && CanAdapt(State(), rcl, owner, desired.Value()) && desired.backend == backend
      modifies server
      ensures Valid() && Grows(old(State()), State()) && Runs(old(State()), events, State())
      ensures server.accounts == old(server.accounts)
      ensures Lookup(cachedAdapters, rcl, desired.owners[0].uid).Some? ==>
                r == Success(Lookup(cachedAdapters, rcl, desired.owners[0].uid).value) && State() == old(State())
      ensures Lookup(cachedAdapters, rcl, desired.owners[0].uid).None? ==>
                if AdapterKey(backend, desired.name) in old(server.adapters) then
                  r == Failure(AlreadyExists) && State() == old(State())
                else
                  && r == Success(Fixpoint.CreatedAdapter(old(State()), desired.Value(), defaults))
                  && State() == PutAdapter(old(State()), r.value) && r.value.meta.name == desired.name
      ensures r.Success? ==> r.value in server.adaptersSeen && CanSync(rcl, desired.Value(), r.value)
    {
      events := [];
      ghost var s := State();
      RunsNothing(s);
      var controller := ControllerOf(desired.owners);
      var found := FindAdapter(cachedAdapters, rcl, controller.value.uid);
      if found.Some? {
        return Success(found.value), events;
      }
      r := server.CreateAdapter(desired.Value(), defaults);
      if r.Success? {
        events := [Event.CreateAdapter(rcl, owner, desired.Value(), defaults)];
        AdapterCreationIsAStep(s, rcl, owner, desired.Value(), defaults);
      }
    }

    /** syncAdapterDeployment and syncAdapterService, with syncAdapter: the
        desired adapter takes the name of the current one, and a Knative Service
        its immutable annotations. */
    method SyncAdapter(rcl: Instance, current: Adapter, desired: AdapterObject, defaults: Adapter,
                       ghost owner: Option<ServiceAccount>)
      returns (r: Result<Adapter, ApiError>, ghost events: seq<Event>)
      requires Valid() && CanAdapt(State(), rcl, owner, desired.Value()) && desired.backend == backend
      requires current in server.adaptersSeen && CanSync(rcl, desired.Value(), current)
      modifies server, desired
      ensures Valid() && Grows(old(State()), State()) && Runs(old(State()), events, State())
      ensures server.accounts == old(server.accounts)
      ensures State() == ApplySyncAdapter(old(State()), old(desired.Value()), current, defaults)
      ensures r.Success? <==> AdapterEqual(old(desired.Value()).(meta := old(desired.Value()).meta.(name := current.meta.name)), current)
                              || AcceptsAdapter(old(State()), AdapterUpdate(old(desired.Value()), current))
      ensures r.Success? ==> Fixpoint.Delivered(old(desired.Value()), r.value)
    {
      ghost var s, d := State(), desired.Value();
      desired.name := current.meta.name;
      if AdapterEqual(desired.Value(), current) {
        r := Success(current);
        Fixpoint.EqualDelivers(d, current);
      } else {
        PrepareUpdate(current, desired);
        r := server.UpdateAdapter(desired.Value(), defaults);
        if r.Success? {
          StoredUpdateDelivers(d, current, defaults, r.value);
        }
      }
      events := [Event.SyncAdapter(rcl, owner, d, current, defaults)];
      AdapterSyncIsAStep(s, rcl, owner, d, current, defaults);
    }

    /** Immutable Knative annotations and the version are taken over. */
    method PrepareUpdate(current: Adapter, desired: AdapterObject)
      requires desired.name == current.meta.name
      modifies desired
      ensures desired.Value() == AdapterUpdate(old(desired.Value()), current)
    {
      if desired.backend.KnativeService? {
        if CREATOR_ANNOTATION in current.meta.annotations {
          desired.annotations := desired.annotations[CREATOR_ANNOTATION := current.meta.annotations[CREATOR_ANNOTATION]];
        }
        if UPDATER_ANNOTATION in current.meta.annotations {
          desired.annotations := desired.annotations[UPDATER_ANNOTATION := current.meta.annotations[UPDATER_ANNOTATION]];
        }
        assert desired.annotations == old(desired.annotations) + Preserved(current.meta.annotations);
      }
      desired.version := current.meta.version;
    }

    /** The steps that reconcileAdapter takes for the adapter. */
    method EnsureAdapter(rcl: Instance, desired: AdapterObject, defaults: Adapter, ghost owner: Option<ServiceAccount>)
      returns (err: Option<ApiError>, ghost events: seq<Event>, ghost found: Option<AdapterKey>)
      requires Valid() && CanAdapt(State(), rcl, owner, desired.Value()) && desired.backend == backend
      modifies server, desired
      ensures Valid() && Runs(old(State()), events, State())
      ensures server.accounts == old(server.accounts)
      ensures found == Fixpoint.FoundKey(cachedAdapters, rcl, old(desired.owners)[0].uid)
      ensures PlacesFresh(old(State()), cachedAdapters, old(desired.Value()), found, defaults, State())
    {
      ghost var s, d := State(), desired.Value();
      found := Fixpoint.FoundKey(cachedAdapters, rcl, desired.owners[0].uid);
      var current, created := GetOrCreateAdapter(rcl, desired, defaults, owner);
      if current.Failure? {
        assert !CanPlace(s, d, found);
        return Some(current.error), created, found;
      }
      ghost var t := State();
      var synced, updates := SyncAdapter(rcl, current.value, desired, defaults, owner);
      ghost var u := State();
      assert u == ApplySyncAdapter(t, d, current.value, defaults);
      RunsThen(s, created, t, updates, u);
      StepsFromFreshAdapters(s, cachedAdapters, rcl, d, current.value, t, u, defaults);
      events := created + updates;
      err := if synced.Failure? then Some(synced.error) else None;
    }

    /** The part of reconcileAdapter after the RBAC objects: a multi-tenant
        adapter is handed over to the account. */
    method PlaceAdapter(rcl: Instance, sa: Option<ServiceAccount>, desired: AdapterObject, defaults: Adapter)
      returns (err: Option<ReconcileError>, ghost events: seq<Event>, ghost found: Option<AdapterKey>)
      requires Valid() && rcl in server.instancesSeen && (sa.Some? ==> (rcl, sa.value) in server.returned)
      requires desired.backend == backend && desired.version == 0
      requires !rcl.multiTenant ==> desired.owners == [InstanceRef(rcl, true)]
      modifies server, desired
      ensures Valid() && Runs(old(State()), events, State())
      ensures err == Some(NilAccount) <==> rcl.multiTenant && sa.None?
      ensures err == Some(NilAccount) ==> State() == old(State())
      ensures server.accounts == old(server.accounts)
      ensures sa.Some? ==> found == Fixpoint.FoundKey(cachedAdapters, rcl, Fixpoint.AdapterOwnerUid(rcl, sa.value))
      ensures sa.Some? && AdaptersAreFreshIn(old(State()), cachedAdapters) && CanPlace(old(State()), old(desired.Value()), found) ==>
                && (found.Some? ==> found.value in old(server.adapters))
                && State() == Fixpoint.FreshAdapter(old(State()), Fixpoint.OwnedAdapter(rcl, old(desired.Value()), sa.value),
                                                    found, defaults)
    {
      events, found := [], None;
      RunsNothing(State());
      if rcl.multiTenant {
        if sa.None? {
          return Some(NilAccount), events, found;
        }
        desired.owners := [AccountRef(sa.value)];
      }
      var e, steps, f := EnsureAdapter(rcl, desired, defaults, sa);
      events, found := steps, f;
      err := if e.Some? then Some(Api(e.value)) else None;
    }

    ghost predicate IsFresh()
      reads this, server
    {
      RbacIsFresh() && AdaptersAreFreshIn(State(), cachedAdapters)
    }

    /** reconcileAdapter. No account comes back when no instance was listed. */
    method ReconcileAdapter(rcl: Instance, owners: seq<Instance>, desired: AdapterObject, defaults: Adapter,
                            ghost listed: seq<Instance>)
      returns (err: Option<ReconcileError>, ghost events: seq<Event>, ghost merged: seq<OwnerReference>,
               ghost found: Option<AdapterKey>)
      requires Valid() && CanReconcile(State(), rcl, listed) && owners == AccountOwners(rcl, listed)
      requires desired.backend == backend && desired.version == 0
      requires !rcl.multiTenant ==> desired.owners == [InstanceRef(rcl, true)]
      modifies server, desired
      ensures Valid() && Runs(old(State()), events, State())
      ensures err == Some(NilAccount) <==> rcl.multiTenant && owners == []
      ensures err == Some(NilAccount) ==> State() == old(State())
      ensures owners != [] && old(IsFresh()) ==> LooksUp(server.accounts, cachedAdapters, rcl, owners, found)
      ensures owners != [] && old(IsFresh()) && CanPlace(old(State()), old(desired.Value()), found) ==>
                IsFreshReconcile(old(State()), State(), rcl, owners, merged, old(desired.Value()), found, defaults)
    {
      ghost var s, built, current := State(), desired.Value(), IsFresh();
      found := None;
      var sa, first, order := ReconcileRbac(rcl, owners, listed);
      events, merged := first, order;
      if sa.Failure? {
        return Some(Api(sa.error)), events, merged, found;
      }
      ghost var t := State();
      var e, second, f := PlaceAdapter(rcl, sa.value, desired, defaults);
      RunsThen(s, first, t, second, State());
      err, events, found := e, first + second, f;
      assert Runs(s, events, State());
      if owners != [] && current && CanPlace(s, built, found) {
        assert t.adapters == s.adapters && AdaptersAreFreshIn(t, cachedAdapters) && CanPlace(t, built, found);
        assert State() == Fixpoint.FreshAdapter(t, Fixpoint.OwnedAdapter(rcl, built, sa.value.value), found, defaults);
        StepsMakeAReconcile(s, rcl, owners, merged, built, found, defaults, t, sa.value.value);
      }
    }

    /** The builder of the instance's type. */
    method BuildAdapter(rcl: Instance, namespace: string, sink: string, extra: seq<ObjectOption>)
      returns (desired: AdapterObject)
      requires AdapterAgreement.NoController(extra)
      ensures fresh(desired) && desired.Value() == BuiltAdapter(backend, rcl, namespace, sink, extra)
      ensures desired.backend == backend && desired.version == 0
      ensures !rcl.multiTenant ==> desired.owners == [InstanceRef(rcl, true)]
    {
      BuiltCanBeReconciled(backend, rcl, namespace, sink, extra);
      if rcl.multiTenant {
        desired := AdapterOptions.NewMTAdapter(backend, rcl, namespace, extra);
      } else {
        desired := AdapterOptions.NewAdapter(backend, rcl, namespace, sink, extra);
      }
    }

    /** ReconcileAdapter: the adapter is built, the owners are resolved from the
        cached instances, and both are reconciled. */
    method Reconcile(rcl: Instance, namespace: string, sink: string, extra: seq<ObjectOption>, defaults: Adapter)
      returns (err: Option<ReconcileError>, ghost events: seq<Event>, ghost merged: seq<OwnerReference>,
               ghost built: Adapter, ghost found: Option<AdapterKey>)
      requires Valid() && CanReconcile(State(), rcl, cachedInstances) && AdapterAgreement.NoController(extra)
      modifies server
      ensures Valid() && Runs(old(State()), events, State())
      ensures built == BuiltAdapter(backend, rcl, namespace, sink, extra)
      ensures err == Some(NilAccount) <==> rcl.multiTenant && AccountOwners(rcl, cachedInstances) == []
      ensures AccountOwners(rcl, cachedInstances) != [] && old(IsFresh()) ==>
                LooksUp(server.accounts, cachedAdapters, rcl, AccountOwners(rcl, cachedInstances), found)
      ensures AccountOwners(rcl, cachedInstances) != [] && old(IsFresh()) && CanPlace(old(State()), built, found) ==>
                IsFreshReconcile(old(State()), State(), rcl, AccountOwners(rcl, cachedInstances), merged, built, found, defaults)
      ensures AccountOwners(rcl, cachedInstances) != [] && old(IsFresh()) && CanPlace(old(State()), built, found)
              && ListsAdapters(old(State()), cachedAdapters, backend) ==>
                Reconciles(old(State()), State(), rcl, AccountOwners(rcl, cachedInstances), built,
                           Call(merged, cachedAdapters, found, defaults))
    {
      SortByNameDistinct(cachedInstances);
      ghost var current := IsFresh();
      var desired := BuildAdapter(rcl, namespace, sink, extra);
      built := desired.Value();
      var owners := ServiceAccountOwners(rcl);
      assert State() == old(State()) && IsFresh() == current && Valid();
      err, events, merged, found := ReconcileAdapter(rcl, owners, desired, defaults, cachedInstances);
    }
  }
}
