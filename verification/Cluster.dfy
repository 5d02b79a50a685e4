/** One namespace of a cluster as a state machine. Reconcilers act on it by
    single API calls. What a cache returned before a call is one of the copies
    that were stored at some earlier time, so every step that depends on a
    cache quantifies over all of them: any interleaving of any number of
    reconciles, with caches as stale as can be, is a run of this machine. */
module Cluster {
  import opened Wrappers
  import opened Objects
  import opened Owners
  import opened Components
  import opened Semantic
  import opened AdapterLookup

  datatype AdapterKey = AdapterKey(backend: Backend, name: string)

  datatype State = State(
    clock: nat,
    instances: map<ObjectKey, Instance>,
    accounts: map<string, ServiceAccount>,
    bindings: map<string, RoleBinding>,
    adapters: map<AdapterKey, Adapter>,
    // every copy that a cache may still hold
    instancesSeen: set<Instance>,
    accountsSeen: set<ServiceAccount>,
    bindingsSeen: set<RoleBinding>,
    adaptersSeen: set<Adapter>,
    // the accounts that the RBAC reconciliation of an instance went on with
    returned: set<(Instance, ServiceAccount)>)

  const INITIAL := State(1, map[], map[], map[], map[], {}, {}, {}, {}, {})

  datatype Event =
    | CreateInstance(instance: Instance)
    | EditInstance(instance: Instance)
    | DeleteInstance(key: ObjectKey)
    | CreateExternalAccount(account: ServiceAccount)
    | ReplaceSecrets(name: string, secrets: seq<string>, imagePullSecrets: seq<string>)
    | CreateAccount(rcl: Instance, listed: seq<Instance>)
    | SyncAccount(rcl: Instance, listed: seq<Instance>, cachedAccount: ServiceAccount, merged: seq<OwnerReference>)
    | CreateBinding(rcl: Instance, sa: ServiceAccount, role: BindingRole)
    | SyncBinding(rcl: Instance, sa: ServiceAccount, role: BindingRole, cachedBinding: RoleBinding)
    | CreateAdapter(rcl: Instance, owner: Option<ServiceAccount>, desired: Adapter, defaults: Adapter)
    | SyncAdapter(rcl: Instance, owner: Option<ServiceAccount>, desired: Adapter, cachedAdapter: Adapter, defaults: Adapter)
    | CollectAccount(name: string)
    | CollectBinding(name: string)
    | CollectAdapter(adapterKey: AdapterKey)
    | PruneAccount(name: string)

  // ---------------------------------------------------------------- uids alive

  ghost predicate UidIsLive(s: State, uid: nat)
  {
    || (exists k :: k in s.instances && s.instances[k].uid == uid)
    || (exists n :: n in s.accounts && s.accounts[n].meta.uid == uid)
    || (exists n :: n in s.bindings && s.bindings[n].meta.uid == uid)
    || (exists k :: k in s.adapters && s.adapters[k].meta.uid == uid)
  }

  /** The garbage collector removes an object that has owners once each of
      their UIDs is absent. */
  ghost predicate Collectible(s: State, owners: seq<OwnerReference>)
  {
    owners != [] && forall r :: r in owners ==> !UidIsLive(s, r.uid)
  }

  /** The references of an object that its collector keeps. */
  ghost function LiveOwners(s: State, owners: seq<OwnerReference>): (r: seq<OwnerReference>)
  {
    if owners == [] then []
    else LiveOwners(s, owners[..|owners| - 1])
         + (if UidIsLive(s, owners[|owners| - 1].uid) then [owners[|owners| - 1]] else [])
  }

  // ---------------------------------------------------- the account's two halves

  /** What syncAdapterServiceAccount decides on a cached copy. */
  datatype Plan = Keep | Update(account: ServiceAccount)

  function PlanSync(desired: ServiceAccount, cached: ServiceAccount, merged: seq<OwnerReference>): Plan
  {
    if AccountEqual(desired, cached) then Keep
    else if !Managed(cached) then Keep
    else
      var preserve := |merged| > 1;
      Update(ServiceAccount(
        desired.meta.(version := cached.meta.version,
                      owners := merged,
                      annotations := if preserve then cached.meta.annotations else desired.meta.annotations,
                      labels := if preserve then cached.meta.labels else desired.meta.labels),
        cached.secrets, cached.imagePullSecrets))
  }

  function Stamp(meta: ObjectMeta, uid: nat, version: nat): ObjectMeta
  {
    meta.(uid := uid, version := version)
  }

  function PutAccount(s: State, sa: ServiceAccount): State
  {
    s.(accounts := s.accounts[sa.meta.name := sa], accountsSeen := s.accountsSeen + {sa}, clock := s.clock + 1)
  }

  function PutBinding(s: State, b: RoleBinding): State
  {
    s.(bindings := s.bindings[b.meta.name := b], bindingsSeen := s.bindingsSeen + {b}, clock := s.clock + 1)
  }

  function PutAdapter(s: State, a: Adapter): State
  {
    s.(adapters := s.adapters[AdapterKey(a.backend, a.meta.name) := a], adaptersSeen := s.adaptersSeen + {a},
       clock := s.clock + 1)
  }

  function Return(s: State, rcl: Instance, sa: ServiceAccount): State
  {
    s.(returned := s.returned + {(rcl, sa)})
  }

  /** The server accepts an update only at the version it stores. */
  predicate AcceptsAccount(s: State, sa: ServiceAccount)
  {
    sa.meta.name in s.accounts && s.accounts[sa.meta.name].meta.version == sa.meta.version
  }

  predicate AcceptsBinding(s: State, b: RoleBinding)
  {
    b.meta.name in s.bindings && s.bindings[b.meta.name].meta.version == b.meta.version
  }

  predicate AcceptsAdapter(s: State, a: Adapter)
  {
    var k := AdapterKey(a.backend, a.meta.name);
    k in s.adapters && s.adapters[k].meta.version == a.meta.version
  }

  /** The copy that the server stores for an accepted update. */
  function UpdatedAccount(s: State, sa: ServiceAccount): ServiceAccount
    requires AcceptsAccount(s, sa)
  {
    sa.(meta := Stamp(sa.meta, s.accounts[sa.meta.name].meta.uid, s.clock))
  }

  function BindingEqual(a: RoleBinding, b: RoleBinding): bool
  {
    a.meta.owners == b.meta.owners && a.roleName == b.roleName && a.subject == b.subject
  }

  const CREATOR_ANNOTATION := "serving.knative.dev/creator"
  const UPDATER_ANNOTATION := "serving.knative.dev/lastModifier"

  /** The immutable annotations that a Knative Service keeps. */
  function Preserved(annotations: StringMap): StringMap
  {
    map k | k in annotations && (k == CREATOR_ANNOTATION || k == UPDATER_ANNOTATION) :: annotations[k]
  }

  /** The update that syncAdapter sends, under the name of the cached copy. */
  function AdapterUpdate(desired: Adapter, cached: Adapter): Adapter
  {
    desired.(meta := desired.meta.(
      name := cached.meta.name,
      version := cached.meta.version,
      annotations := if desired.backend.Deployment? then desired.meta.annotations
                     else desired.meta.annotations + Preserved(cached.meta.annotations)))
  }

  // -------------------------------------------------------------------- guards

  /** What a lister can return: copies that were stored at some time, at most
      one for each name. */
  ghost predicate CanList(s: State, rcl: Instance, listed: seq<Instance>)
  {
    && (forall i :: i in listed ==> i in s.instancesSeen && i.kind == rcl.kind)
    && DistinctNames(listed)
  }

  /** Owners that an adapter of `rcl` gets: the instance itself, or the account
      when the adapter serves many instances. */
  ghost predicate AdapterOwnersOf(rcl: Instance, owner: Option<ServiceAccount>, desired: Adapter)
  {
    && desired.meta.uid == 0 && desired.meta.version == 0
    && (rcl.multiTenant ==> owner.Some? && desired.meta.owners == [AccountRef(owner.value)])
    && (!rcl.multiTenant ==> desired.meta.owners == [InstanceRef(rcl, true)])
  }

  ghost predicate CanStore(s: State, i: Instance)
  {
    WellTyped(i) && i.apiVersion != "" && i.kind != "" && i.name != ""
  }

  ghost predicate Enabled(s: State, e: Event)
  {
    match e
    case CreateInstance(i) => CanStore(s, i) && i.uid == s.clock && InstanceKey(i) !in s.instances
    case EditInstance(i) =>
      CanStore(s, i) && InstanceKey(i) in s.instances && s.instances[InstanceKey(i)].uid == i.uid
      && s.instances[InstanceKey(i)].apiVersion == i.apiVersion
    case DeleteInstance(k) => k in s.instances
    case CreateExternalAccount(sa) =>
      !Managed(sa) && sa.meta.uid == s.clock && sa.meta.version == s.clock && sa.meta.name !in s.accounts
      && forall r :: r in sa.meta.owners ==>
           exists i :: i in s.instancesSeen && InstanceKey(i) == OwnerKey(r) && i.uid == r.uid
    case ReplaceSecrets(n, _, _) => n in s.accounts
    case CreateAccount(rcl, listed) =>
      rcl in s.instancesSeen && CanList(s, rcl, listed) && AccountOwners(rcl, listed) != []
      && DesiredAccount(rcl, AccountOwners(rcl, listed)).meta.name !in s.accounts
    case SyncAccount(rcl, listed, cached, merged) =>
      var desired := DesiredAccount(rcl, AccountOwners(rcl, listed));
      rcl in s.instancesSeen && CanList(s, rcl, listed) && AccountOwners(rcl, listed) != []
      && cached in s.accountsSeen && cached.meta.name == desired.meta.name
      && Lists(merged, Merged(cached.meta.owners, desired.meta.owners))
    case CreateBinding(rcl, sa, role) =>
      (rcl, sa) in s.returned && (role.MultiTenantAdapter? ==> rcl.multiTenant)
      && DesiredBinding(rcl, sa, role).meta.name !in s.bindings
    case SyncBinding(rcl, sa, role, cached) =>
      (rcl, sa) in s.returned && (role.MultiTenantAdapter? ==> rcl.multiTenant)
      && cached in s.bindingsSeen && cached.meta.name == DesiredBinding(rcl, sa, role).meta.name
    case CreateAdapter(rcl, owner, desired, defaults) =>
      rcl in s.instancesSeen && (owner.Some? ==> (rcl, owner.value) in s.returned)
      && AdapterOwnersOf(rcl, owner, desired)
      && AdapterKey(desired.backend, desired.meta.name) !in s.adapters
    case SyncAdapter(rcl, owner, desired, cached, defaults) =>
      rcl in s.instancesSeen && (owner.Some? ==> (rcl, owner.value) in s.returned)
      && AdapterOwnersOf(rcl, owner, desired)
      && cached in s.adaptersSeen && cached.backend == desired.backend
      && ControlledBy(cached, desired.meta.owners[0].uid)
      && (HasLabels(cached.meta.labels, LookupLabels(rcl)) || cached.meta.name == desired.meta.name)
    case CollectAccount(n) => n in s.accounts && Collectible(s, s.accounts[n].meta.owners)
    case CollectBinding(n) => n in s.bindings && Collectible(s, s.bindings[n].meta.owners)
    case CollectAdapter(k) => k in s.adapters && Collectible(s, s.adapters[k].meta.owners)
    case PruneAccount(n) => n in s.accounts && LiveOwners(s, s.accounts[n].meta.owners) != []
  }

  // ------------------------------------------------------------------- effects

  ghost function Apply(s: State, e: Event): State
    requires Enabled(s, e)
  {
    match e
    case CreateInstance(i) =>
      s.(instances := s.instances[InstanceKey(i) := i], instancesSeen := s.instancesSeen + {i}, clock := s.clock + 1)
    case EditInstance(i) =>
      s.(instances := s.instances[InstanceKey(i) := i], instancesSeen := s.instancesSeen + {i})
    case DeleteInstance(k) => s.(instances := s.instances - {k})
    case CreateExternalAccount(sa) => PutAccount(s, sa)
    case ReplaceSecrets(n, secrets, pull) =>
      var sa := s.accounts[n];
      PutAccount(s, ServiceAccount(sa.meta.(version := s.clock), secrets, pull))
    case CreateAccount(rcl, listed) => ApplyCreateAccount(s, rcl, DesiredAccount(rcl, AccountOwners(rcl, listed)))
    case SyncAccount(rcl, listed, cached, merged) =>
      ApplySyncAccount(s, rcl, DesiredAccount(rcl, AccountOwners(rcl, listed)), cached, merged)
    case CreateBinding(rcl, sa, role) =>
      var desired := DesiredBinding(rcl, sa, role);
      PutBinding(s, desired.(meta := Stamp(desired.meta, s.clock, s.clock)))
    case SyncBinding(rcl, sa, role, cached) => ApplySyncBinding(s, DesiredBinding(rcl, sa, role), cached)
    case CreateAdapter(rcl, owner, desired, defaults) =>
      var stored := Fill(desired, defaults);
      PutAdapter(s, stored.(meta := Stamp(stored.meta, s.clock, s.clock)))
    case SyncAdapter(rcl, owner, desired, cached, defaults) => ApplySyncAdapter(s, desired, cached, defaults)
    case CollectAccount(n) => s.(accounts := s.accounts - {n})
    case CollectBinding(n) => s.(bindings := s.bindings - {n})
    case CollectAdapter(k) => s.(adapters := s.adapters - {k})
    case PruneAccount(n) =>
      var sa := s.accounts[n];
      PutAccount(s, sa.(meta := sa.meta.(version := s.clock, owners := LiveOwners(s, sa.meta.owners))))
  }

  /** Only accounts change, and what is recorded about them. */
  predicate OnlyAccountsDiffer(s: State, s': State)
  {
    && s'.instances == s.instances && s'.instancesSeen == s.instancesSeen
    && s'.bindings == s.bindings && s'.bindingsSeen == s.bindingsSeen
    && s'.adapters == s.adapters && s'.adaptersSeen == s.adaptersSeen
  }

  function ApplyCreateAccount(s: State, rcl: Instance, desired: ServiceAccount): (s': State)
    ensures OnlyAccountsDiffer(s, s')
  {
    var sa := desired.(meta := Stamp(desired.meta, s.clock, s.clock));
    Return(PutAccount(s, sa), rcl, sa)
  }

  /** A kept account is returned as cached; an update that the server rejects
      leaves the store as it is and ends the reconcile with an error. */
  function ApplySyncAccount(s: State, rcl: Instance, desired: ServiceAccount, cached: ServiceAccount,
                            merged: seq<OwnerReference>): (s': State)
    ensures OnlyAccountsDiffer(s, s')
  {
    match PlanSync(desired, cached, merged)
    case Keep => Return(s, rcl, cached)
    case Update(sa) =>
      if AcceptsAccount(s, sa) then Return(PutAccount(s, UpdatedAccount(s, sa)), rcl, UpdatedAccount(s, sa)) else s
  }

  predicate OnlyDependentsDiffer(s: State, s': State)
  {
    && s'.instances == s.instances && s'.instancesSeen == s.instancesSeen
    && s'.accounts == s.accounts && s'.accountsSeen == s.accountsSeen && s'.returned == s.returned
  }

  function ApplySyncBinding(s: State, desired: RoleBinding, cached: RoleBinding): (s': State)
    ensures OnlyDependentsDiffer(s, s') && s'.adapters == s.adapters && s'.adaptersSeen == s.adaptersSeen
  {
    var update := desired.(meta := desired.meta.(version := cached.meta.version));
    if !BindingEqual(desired, cached) && AcceptsBinding(s, update) then
      PutBinding(s, update.(meta := Stamp(update.meta, s.bindings[update.meta.name].meta.uid, s.clock)))
    else s
  }

  function ApplySyncAdapter(s: State, desired: Adapter, cached: Adapter, defaults: Adapter): (s': State)
    ensures OnlyDependentsDiffer(s, s') && s'.bindings == s.bindings && s'.bindingsSeen == s.bindingsSeen
  {
    var named := desired.(meta := desired.meta.(name := cached.meta.name));
    var update := AdapterUpdate(desired, cached);
    if !AdapterEqual(named, cached) && AcceptsAdapter(s, update) then
      var stored := Fill(update, defaults);
      PutAdapter(s, stored.(meta := Stamp(stored.meta,
        s.adapters[AdapterKey(update.backend, update.meta.name)].meta.uid, s.clock)))
    else s
  }

  // ---------------------------------------------------------------------- runs

  ghost predicate IsRun(s: State, events: seq<Event>)
    decreases |events|
  {
    events == [] || (Enabled(s, events[0]) && IsRun(Apply(s, events[0]), events[1..]))
  }

  ghost function After(s: State, events: seq<Event>): State
    requires IsRun(s, events)
    decreases |events|
  {
    if events == [] then s else After(Apply(s, events[0]), events[1..])
  }

  lemma RunCons(s: State, e: Event, rest: seq<Event>)
    requires Enabled(s, e) && IsRun(Apply(s, e), rest)
    ensures IsRun(s, [e] + rest) && After(s, [e] + rest) == After(Apply(s, e), rest)
  {
    assert ([e] + rest)[1..] == rest;
  }

  lemma Regroup(first: seq<Event>, e: Event, rest: seq<Event>, second: seq<Event>)
    requires first != [] && e == first[0] && rest == first[1..]
    ensures first == [e] + rest && first + second == [e] + (rest + second)
  {
  }

  lemma {:induction false} RunsCompose(s: State, first: seq<Event>, second: seq<Event>)
    requires IsRun(s, first) && IsRun(After(s, first), second)
    ensures IsRun(s, first + second) && After(s, first + second) == After(After(s, first), second)
    decreases |first|
  {
    if first == [] {
      assert first + second == second;
    } else {
      var e, t, rest := first[0], Apply(s, first[0]), first[1..];
      RunsCompose(t, rest, second);
      RunCons(s, e, rest);
      RunCons(s, e, rest + second);
      Regroup(first, e, rest, second);
    }
  }

  lemma RunOfOne(s: State, e: Event)
    requires Enabled(s, e)
    ensures IsRun(s, [e]) && After(s, [e]) == Apply(s, e)
  {
    assert [e][1..] == [];
  }

  predicate IsCollection(e: Event)
  {
    e.CollectAccount? || e.CollectBinding? || e.CollectAdapter?
  }

  /** The steps that a reconciler takes. */
  predicate IsReconcilerStep(e: Event)
  {
    e.CreateAccount? || e.SyncAccount? || e.CreateBinding? || e.SyncBinding? || e.CreateAdapter? || e.SyncAdapter?
  }
}
