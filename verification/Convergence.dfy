/** Two reconciles of one instance in a row, each with current caches: what the
    first one leaves is what the second one looks up. */
module Convergence {
  import opened Wrappers
  import opened Objects
  import opened Components
  import opened Semantic
  import opened AdapterLookup
  import opened Cluster
  import opened ClusterInvariant
  import opened ClusterAdapters
  import opened Fixpoint
  import opened Reconciler
  import ClusterBuilt
  import AdapterBuilder
  import AdapterOptions
  import AdapterAgreement

  ghost predicate KeysMatch(s: State)
  {
    forall k :: k in s.adapters ==> AdapterKey(s.adapters[k].backend, s.adapters[k].meta.name) == k
  }

  // ---------------------------------------------------------------- the lookup

  /** Over current caches the lookup misses nothing and makes nothing up. */
  lemma LookupIsExact(s: State, listed: seq<Adapter>, u: Subject)
    requires KeysMatch(s) && ListsAdapters(s, listed, u.backend)
    ensures var found := FoundKey(listed, u.rcl, u.uid);
            (found.None? <==> AdaptersOf(s, u) == {}) && (found.Some? ==> found.value in AdaptersOf(s, u))
  {
    var a := Lookup(listed, u.rcl, u.uid);
    if a.Some? {
      assert AdapterKey(a.value.backend, a.value.meta.name) in AdaptersOf(s, u);
    }
  }

  /** When one adapter counts, every order of the lister leads to it. */
  lemma OnlyOneIsFound(s: State, listed: seq<Adapter>, u: Subject, k: AdapterKey)
    requires KeysMatch(s) && ListsAdapters(s, listed, u.backend) && AdaptersOf(s, u) == {k}
    ensures FoundKey(listed, u.rcl, u.uid) == Some(k)
  {
    LookupIsExact(s, listed, u);
    assert k in AdaptersOf(s, u);
  }

  // ------------------------------------------------------------ what was placed

  ghost predicate IsWanted(desired: Adapter, u: Subject)
  {
    desired.backend == u.backend && HasLabels(desired.meta.labels, LookupLabels(u.rcl)) && ControlledBy(desired, u.uid)
  }

  lemma SyncPlaces(s: State, desired: Adapter, k: AdapterKey, defaults: Adapter, u: Subject)
    requires AdaptersOk(s) && IsWanted(desired, u) && k in AdaptersOf(s, u)
    ensures var t := ApplySyncAdapter(s, desired, s.adapters[k], defaults);
            AdaptersOf(t, u) == AdaptersOf(s, u) && KeysMatch(t)
  {
    var a := SyncedAdapter(s, desired, s.adapters[k], defaults);
    OverlaidCounts(u, desired, defaults.meta.labels, a);
    ReplacingCounts(s, ApplySyncAdapter(s, desired, s.adapters[k], defaults), u, k, a);
  }

  lemma CreationPlaces(s: State, desired: Adapter, defaults: Adapter, u: Subject)
    requires AdaptersOk(s) && s.clock > 0 && IsWanted(desired, u)
    requires AdapterKey(desired.backend, desired.meta.name) !in s.adapters
    ensures var k := AdapterKey(desired.backend, desired.meta.name);
            var t := PutAdapter(s, CreatedAdapter(s, desired, defaults));
            AdaptersOk(t) && AdaptersOf(t, u) == AdaptersOf(s, u) + {k} && k in t.adapters
            && t.adapters[k] == CreatedAdapter(s, desired, defaults)
  {
    var created := CreatedAdapter(s, desired, defaults);
    AdapterStoredAdapters(s, created);
    OverlaidCounts(u, desired, defaults.meta.labels, created);
  }

  /** A reconcile adds the adapter that it creates and keeps what it found. */
  lemma FreshAdapterPlaces(s: State, desired: Adapter, found: Option<AdapterKey>, defaults: Adapter, u: Subject)
    requires AdaptersOk(s) && s.clock > 0 && IsWanted(desired, u) && CanPlace(s, desired, found)
    requires found.Some? ==> found.value in AdaptersOf(s, u)
    ensures var t := FreshAdapter(s, desired, found, defaults);
            AdaptersOf(t, u) == AdaptersOf(s, u) + {AdapterKeyOf(desired, found)} && KeysMatch(t)
  {
    if found.Some? {
      SyncPlaces(s, desired, found.value, defaults, u);
    } else {
      CreationPlaces(s, desired, defaults, u);
      SyncPlaces(PutAdapter(s, CreatedAdapter(s, desired, defaults)), desired,
                 AdapterKey(desired.backend, desired.meta.name), defaults, u);
    }
  }

  /** With at most one to begin with, the lookup after the reconcile finds what
      the reconcile left, in whatever order the lister has the adapters. */
  lemma OnlyOneIsLeft(s: State, t: State, u: Subject, found: Option<AdapterKey>, k: AdapterKey)
    requires |AdaptersOf(s, u)| <= 1 && (found.None? <==> AdaptersOf(s, u) == {})
    requires found.Some? ==> found.value in AdaptersOf(s, u) && k == found.value
    requires AdaptersOf(t, u) == AdaptersOf(s, u) + {k}
    ensures AdaptersOf(t, u) == {k}
  {
    if found.Some? {
      assert AdaptersOf(s, u) - {k} == {} by {
        assert |AdaptersOf(s, u) - {k}| == |AdaptersOf(s, u)| - 1;
      }
    }
  }

  // ----------------------------------------------------------- one reconcile

  /** A built adapter is one that the next lookup accepts. */
  lemma BuiltIsWanted(backend: Backend, rcl: Instance, namespace: string, sink: string,
                      extra: seq<AdapterBuilder.ObjectOption>, sa: ServiceAccount)
    requires AdapterAgreement.LeaveLookup(extra) && AdapterAgreement.OverridesAgree(rcl)
    ensures IsWanted(OwnedAdapter(rcl, BuiltAdapter(backend, rcl, namespace, sink, extra), sa),
                     Subject(rcl, AdapterOwnerUid(rcl, sa), backend))
  {
    if rcl.multiTenant {
      AdapterAgreement.SharedAdapterIsFound(backend, rcl, namespace, extra, sa);
      AdapterAgreement.BuiltIdentity(backend, rcl, MTAdapterObjectName(rcl.kind),
                                     AdapterOptions.SharedOptions(namespace) + extra);
    } else {
      AdapterAgreement.InstanceAdapterIsFound(backend, rcl, namespace, sink, extra);
      BuiltCanBeReconciled(backend, rcl, namespace, sink, extra);
    }
  }

  lemma AccountLeavesAdapters(s: State, rcl: Instance, desired: ServiceAccount, merged: seq<OwnerReference>)
    ensures FreshAccount(s, rcl, desired, merged).clock >= s.clock
  {
  }

  lemma BindingLeavesAdapters(s: State, desired: RoleBinding)
    ensures WithBinding(s, desired).clock >= s.clock
  {
  }

  lemma RbacLeavesAdapters(s: State, rcl: Instance, desired: ServiceAccount, merged: seq<OwnerReference>)
    ensures var t := FreshRbac(s, rcl, desired, merged);
            t.adapters == s.adapters && t.adaptersSeen == s.adaptersSeen && t.clock >= s.clock
  {
    var bound := FreshAccount(s, rcl, desired, merged);
    AccountLeavesAdapters(s, rcl, desired, merged);
    if desired.meta.name in bound.accounts {
      var sa := bound.accounts[desired.meta.name];
      BindingLeavesAdapters(bound, DesiredBinding(rcl, sa, ConfigWatcher));
      BindingLeavesAdapters(FreshBinding(bound, rcl, sa, ConfigWatcher), DesiredBinding(rcl, sa, MultiTenantAdapter));
    }
  }

  lemma AdapterLeavesAccounts(s: State, desired: Adapter, found: Option<AdapterKey>, defaults: Adapter)
    requires found.Some? ==> found.value in s.adapters
    ensures FreshAdapter(s, desired, found, defaults).accounts == s.accounts
  {
  }

  /** Whose adapters a call looked for. */
  ghost function SubjectOfCall(t: State, rcl: Instance, owners: seq<Instance>, backend: Backend): Subject
    requires DesiredAccount(rcl, owners).meta.name in t.accounts
  {
    Subject(rcl, AdapterOwnerUid(rcl, t.accounts[DesiredAccount(rcl, owners).meta.name]), backend)
  }

  lemma PlacingLeavesOne(s: State, bound: State, owned: Adapter, found: Option<AdapterKey>, defaults: Adapter, u: Subject)
    requires AdaptersOk(s) && s.clock > 0 && bound.adapters == s.adapters && bound.adaptersSeen == s.adaptersSeen
    requires bound.clock >= s.clock && IsWanted(owned, u) && CanPlace(s, owned, found) && |AdaptersOf(s, u)| <= 1
    requires (found.None? <==> AdaptersOf(s, u) == {}) && (found.Some? ==> found.value in AdaptersOf(s, u))
    ensures var t := FreshAdapter(bound, owned, found, defaults);
            AdaptersOf(t, u) == {AdapterKeyOf(owned, found)} && KeysMatch(t)
  {
    assert AdaptersOf(bound, u) == AdaptersOf(s, u);
    FreshAdapterPlaces(bound, owned, found, defaults, u);
    OnlyOneIsLeft(s, FreshAdapter(bound, owned, found, defaults), u, found, AdapterKeyOf(owned, found));
  }

  /** With at most one adapter to begin with, one is left, and it is there that
      any later lookup over current caches ends, in whatever order the lister
      has the adapters. */
  lemma ReconcileLeavesOne(s: State, t: State, rcl: Instance, owners: seq<Instance>, built: Adapter, c: Call, u: Subject)
    requires AdaptersOk(s) && s.clock > 0 && Reconciles(s, t, rcl, owners, built, c)
    requires u == SubjectOfCall(t, rcl, owners, built.backend) && |AdaptersOf(s, u)| <= 1
    requires IsWanted(OwnedAdapter(rcl, built, t.accounts[DesiredAccount(rcl, owners).meta.name]), u)
    ensures AdaptersOf(t, u) == {AdapterKeyOf(built, c.found)} && KeysMatch(t)
  {
    var desired := DesiredAccount(rcl, owners);
    var bound := FreshRbac(s, rcl, desired, c.merged);
    RbacLeavesAdapters(s, rcl, desired, c.merged);
    var owned := OwnedAdapter(rcl, built, bound.accounts[desired.meta.name]);
    AdapterLeavesAccounts(bound, owned, c.found, c.defaults);
    LookupIsExact(s, c.listed, u);
    PlacingLeavesOne(s, bound, owned, c.found, c.defaults, u);
  }

  /** Whatever the spec asks for arrives: after the call the stored adapter has
      every value that the built one sets. */
  lemma ReconcileDelivers(s: State, t: State, rcl: Instance, owners: seq<Instance>, built: Adapter, c: Call)
    requires KeysMatch(s) && Reconciles(s, t, rcl, owners, built, c)
    ensures var sa, k := t.accounts[DesiredAccount(rcl, owners).meta.name], AdapterKeyOf(built, c.found);
            k in t.adapters && Delivered(OwnedAdapter(rcl, built, sa), t.adapters[k])
  {
    var desired := DesiredAccount(rcl, owners);
    var bound := FreshRbac(s, rcl, desired, c.merged);
    RbacLeavesAdapters(s, rcl, desired, c.merged);
    var owned := OwnedAdapter(rcl, built, bound.accounts[desired.meta.name]);
    AdapterLeavesAccounts(bound, owned, c.found, c.defaults);
    LookupIsExact(s, c.listed, SubjectOfCall(t, rcl, owners, built.backend));
    FreshAdapterDelivers(bound, owned, c.found, c.defaults);
  }

  // --------------------------------------------------------- two in a row

  /** The defaults add no visibility, and an adapter that was found is not
      wanted with other values of the annotations that the server owns. */
  ghost predicate CanSettle(s: State, built: Adapter, c: Call)
  {
    && DefaultsLeaveVisibility(built, c.defaults)
    && (c.found.Some? && c.found.value in s.adapters ==> KeepsServerAnnotations(built, s.adapters[c.found.value]))
  }

  /** The second call looks for the adapters of the same owner. */
  lemma SameOwnerAgain(s: State, t: State, t2: State, rcl: Instance, owners: seq<Instance>, built: Adapter, c: Call, c2: Call)
    requires NamesMatch(s) && Reconciles(s, t, rcl, owners, built, c) && Reconciles(t, t2, rcl, owners, built, c2)
    ensures SubjectOfCall(t2, rcl, owners, built.backend) == SubjectOfCall(t, rcl, owners, built.backend)
  {
    var desired := DesiredAccount(rcl, owners);
    DesiredIsDesired(rcl, owners);
    RbacIsDoneOnce(s, rcl, desired, c.merged);
    var bound := FreshRbac(s, rcl, desired, c.merged);
    AdapterPartKeepsDone(bound, rcl, desired, OwnedAdapter(rcl, built, bound.accounts[desired.meta.name]), c);
    RbacIsStable(t, rcl, desired, c2.merged);
    var again := FreshRbac(t, rcl, desired, c2.merged);
    AdapterLeavesAccounts(again, OwnedAdapter(rcl, built, again.accounts[desired.meta.name]), c2.found, c2.defaults);
  }

  lemma AdapterPartKeepsDone(s: State, rcl: Instance, desired: ServiceAccount, owned: Adapter, c: Call)
    requires RbacDone(s, rcl, desired) && (c.found.Some? ==> c.found.value in s.adapters)
    ensures RbacDone(FreshAdapter(s, owned, c.found, c.defaults), rcl, desired)
  {
  }

  /** The second call finds what the first one left. */
  lemma SecondCallFinds(s: State, t: State, t2: State, rcl: Instance, owners: seq<Instance>, built: Adapter,
                        c: Call, c2: Call, u: Subject)
    requires Inv(s) && Reconciles(s, t, rcl, owners, built, c) && Reconciles(t, t2, rcl, owners, built, c2)
    requires u == SubjectOfCall(t, rcl, owners, built.backend) && |AdaptersOf(s, u)| <= 1
    requires IsWanted(OwnedAdapter(rcl, built, t.accounts[DesiredAccount(rcl, owners).meta.name]), u)
    ensures c2.found == Some(AdapterKeyOf(built, c.found))
  {
    ReconcileLeavesOne(s, t, rcl, owners, built, c, u);
    SameOwnerAgain(s, t, t2, rcl, owners, built, c, c2);
    OnlyOneIsFound(t, c2.listed, u, AdapterKeyOf(built, c.found));
    assert c2.found == FoundKey(c2.listed, rcl, u.uid);
  }

  lemma FoundCanSettle(s: State, built: Adapter, c: Call, u: Subject)
    requires KeysMatch(s) && ListsAdapters(s, c.listed, built.backend) && u.backend == built.backend
    requires c.found == FoundKey(c.listed, u.rcl, u.uid)
    requires built.meta.uid == 0 && built.meta.version == 0 && CanSettle(s, built, c)
    ensures CanSettleAdapter(s, built, c.found, c.defaults)
  {
    LookupIsExact(s, c.listed, u);
  }

  /** It then writes no RoleBinding and no adapter, and of the account only the
      order of the owners. */
  lemma SecondCallIsStable(s: State, t: State, t2: State, rcl: Instance, owners: seq<Instance>, built: Adapter,
                           c: Call, c2: Call, u: Subject)
    requires Inv(s) && Reconciles(s, t, rcl, owners, built, c) && Reconciles(t, t2, rcl, owners, built, c2)
    requires u == SubjectOfCall(t, rcl, owners, built.backend) && c2.found == Some(AdapterKeyOf(built, c.found))
    requires built.meta.uid == 0 && built.meta.version == 0 && CanSettle(s, built, c)
    ensures StableUpToOrder(t, t2, DesiredAccount(rcl, owners).meta.name)
  {
    FoundCanSettle(s, built, c, u);
    SecondReconcileIsStable(s, rcl, owners, c.merged, c2.merged, built, c.found, c.defaults, c2.defaults);
  }

  lemma BuiltIsUnstamped(backend: Backend, rcl: Instance, namespace: string, sink: string,
                         extra: seq<AdapterBuilder.ObjectOption>)
    ensures var built := BuiltAdapter(backend, rcl, namespace, sink, extra);
            built.backend == backend && built.meta.uid == 0 && built.meta.version == 0
  {
    if rcl.multiTenant {
      AdapterAgreement.BuiltIdentity(backend, rcl, MTAdapterObjectName(rcl.kind),
                                     AdapterOptions.SharedOptions(namespace) + extra);
    } else {
      AdapterAgreement.BuiltIdentity(backend, rcl, ChildName(ComponentName(rcl.kind) + "-", rcl.name),
                                     AdapterOptions.InstanceOptions(backend, rcl, namespace, sink) + extra);
    }
  }

  /** After any run of reconciles that build their adapters, with caches as
      stale as can be: two calls of Reconcile with current caches and nothing in
      between, and the second one is stable. */
  lemma ReconcilingTwiceIsStable(events: seq<Event>, s: State, t: State, t2: State, rcl: Instance, owners: seq<Instance>,
                                 backend: Backend, namespace: string, sink: string,
                                 extra: seq<AdapterBuilder.ObjectOption>, c: Call, c2: Call)
    requires IsRun(INITIAL, events) && ClusterBuilt.IsBuiltRun(events) && s == After(INITIAL, events)
    requires AdapterAgreement.LeaveLookup(extra) && AdapterAgreement.OverridesAgree(rcl)
    requires var built := BuiltAdapter(backend, rcl, namespace, sink, extra);
             && Reconciles(s, t, rcl, owners, built, c) && Reconciles(t, t2, rcl, owners, built, c2)
             && CanSettle(s, built, c)
    ensures c2.found == Some(AdapterKeyOf(BuiltAdapter(backend, rcl, namespace, sink, extra), c.found))
    ensures StableUpToOrder(t, t2, DesiredAccount(rcl, owners).meta.name)
  {
    var built := BuiltAdapter(backend, rcl, namespace, sink, extra);
    BuiltIsUnstamped(backend, rcl, namespace, sink, extra);
    var u := SubjectOfCall(t, rcl, owners, backend);
    ReachableStatesSatisfyInv(events);
    ClusterBuilt.BuiltAdaptersAreUnique(events, s, u);
    BuiltIsWanted(backend, rcl, namespace, sink, extra, t.accounts[DesiredAccount(rcl, owners).meta.name]);
    SecondCallFinds(s, t, t2, rcl, owners, built, c, c2, u);
    SecondCallIsStable(s, t, t2, rcl, owners, built, c, c2, u);
  }

  // ------------------------------------------------------- several adapters

  /** The adapter part of a reconcile writes nothing. */
  ghost predicate LeavesAdapters(s: State, desired: Adapter, found: Option<AdapterKey>, defaults: Adapter)
  {
    found.Some? && found.value in s.adapters && FreshAdapter(s, desired, found, defaults).adapters == s.adapters
  }

  lemma LeavesExactlyWhenDone(s: State, desired: Adapter, k: AdapterKey, defaults: Adapter)
    requires KeysMatch(s) && k in s.adapters && s.adapters[k].meta.version < s.clock && k.backend == desired.backend
    ensures LeavesAdapters(s, desired, Some(k), defaults) <==> AdapterDone(s, desired, k)
  {
    var cached := s.adapters[k];
    if !AdapterDone(s, desired, k) {
      assert AcceptsAdapter(s, AdapterUpdate(desired, cached));
      assert FreshAdapter(s, desired, Some(k), defaults).adapters[k].meta.version == s.clock;
    }
  }

  /** The adapters under some keys as a list. */
  lemma {:induction false} Enumerate(s: State, keys: set<AdapterKey>) returns (listed: seq<Adapter>)
    requires forall k :: k in keys ==> k in s.adapters
    ensures forall a :: a in listed <==> exists k :: k in keys && s.adapters[k] == a
  {
    if keys == {} {
      listed := [];
    } else {
      var k :| k in keys;
      var rest := Enumerate(s, keys - {k});
      listed := [s.adapters[k]] + rest;
    }
  }

  /** Each adapter that is accepted comes first in some order of the lister. */
  lemma EachCanBeFound(s: State, u: Subject, k: AdapterKey) returns (listed: seq<Adapter>)
    requires KeysMatch(s) && k in AdaptersOf(s, u)
    ensures ListsAdapters(s, listed, u.backend) && FoundKey(listed, u.rcl, u.uid) == Some(k)
  {
    var others := set j | j in s.adapters && j.backend == u.backend && j != k;
    var rest := Enumerate(s, others);
    listed := [s.adapters[k]] + rest;
    forall j | j in s.adapters && j.backend == u.backend
      ensures s.adapters[j] in listed
    {
      assert j == k || j in others;
    }
  }

  /** With several adapters a reconcile writes nothing in whatever order the
      lister has them exactly when none of them is left to be written. */
  lemma StableInEveryOrderExactlyWhen(s: State, u: Subject, desired: Adapter, defaults: Adapter)
    requires AdaptersOk(s) && desired.backend == u.backend && AdaptersOf(s, u) != {}
    ensures (forall listed :: ListsAdapters(s, listed, u.backend) ==>
                                LeavesAdapters(s, desired, FoundKey(listed, u.rcl, u.uid), defaults))
            <==> forall k :: k in AdaptersOf(s, u) ==> AdapterDone(s, desired, k)
  {
    if forall listed :: ListsAdapters(s, listed, u.backend) ==>
                          LeavesAdapters(s, desired, FoundKey(listed, u.rcl, u.uid), defaults) {
      forall k | k in AdaptersOf(s, u)
        ensures AdapterDone(s, desired, k)
      {
        var listed := EachCanBeFound(s, u, k);
        LeavesExactlyWhenDone(s, desired, k, defaults);
      }
    } else {
      var listed :| ListsAdapters(s, listed, u.backend)
                    && !LeavesAdapters(s, desired, FoundKey(listed, u.rcl, u.uid), defaults);
      LookupIsExact(s, listed, u);
      LeavesExactlyWhenDone(s, desired, FoundKey(listed, u.rcl, u.uid).value, defaults);
    }
  }

  /** After a reconcile that found one of two adapters, another order of the
      lister makes the next one find the other adapter, and write it. */
  lemma OtherOrderWritesOther(s: State, u: Subject, desired: Adapter, defaults: Adapter, j: AdapterKey, k: AdapterKey)
    requires AdaptersOk(s) && s.clock > 0 && IsWanted(desired, u)
    requires j in AdaptersOf(s, u) && k in AdaptersOf(s, u) && j != k && !AdapterDone(s, desired, k)
    ensures var t := FreshAdapter(s, desired, Some(j), defaults);
            k in t.adapters && !LeavesAdapters(t, desired, Some(k), defaults)
            && exists listed :: ListsAdapters(t, listed, u.backend) && FoundKey(listed, u.rcl, u.uid) == Some(k)
  {
    var t := FreshAdapter(s, desired, Some(j), defaults);
    SyncPlaces(s, desired, j, defaults, u);
    assert k in AdaptersOf(t, u) && t.adapters[k] == s.adapters[k];
    var listed := EachCanBeFound(t, u, k);
    LeavesExactlyWhenDone(t, desired, k, defaults);
  }

  /** The step that creates an adapter of an instance. */
  function Creation(rcl: Instance, desired: Adapter): Event
  {
    CreateAdapter(rcl, None, desired, AdapterBuilder.EmptyAdapter(desired.backend, ""))
  }

  lemma CreationOf(s: State, rcl: Instance, desired: Adapter, u: Subject)
    requires !rcl.multiTenant && rcl in s.instancesSeen && u == Subject(rcl, rcl.uid, desired.backend)
    requires AdapterOwnersOf(rcl, None, desired) && HasLabels(desired.meta.labels, LookupLabels(rcl))
    requires AdapterKey(desired.backend, desired.meta.name) !in s.adapters && desired.template.serviceAccountName != ""
    ensures Enabled(s, Creation(rcl, desired))
    ensures var t, k := Apply(s, Creation(rcl, desired)), AdapterKey(desired.backend, desired.meta.name);
            && AdaptersOf(t, u) == AdaptersOf(s, u) + {k} && rcl in t.instancesSeen && t.adapters.Keys == s.adapters.Keys + {k}
            && t.adapters[k].template.serviceAccountName == desired.template.serviceAccountName
  {
    CreateCounts(s, Creation(rcl, desired), u);
  }

  /** The same adapter as an earlier release might have built it: under another
      name, and with another account. */
  function Renamed(a: Adapter): Adapter
  {
    a.(meta := a.meta.(name := a.meta.name + "-0"),
       template := a.template.(serviceAccountName := a.template.serviceAccountName + "-0"))
  }

  ghost predicate HasTwo(s: State, u: Subject, desired: Adapter, j: AdapterKey, k: AdapterKey)
  {
    j != k && AdaptersOf(s, u) == {j, k} && !AdapterDone(s, desired, k)
  }

  lemma OtherAccountIsNotDone(s: State, desired: Adapter, k: AdapterKey)
    requires desired.template.serviceAccountName != ""
    requires k in s.adapters && s.adapters[k].template.serviceAccountName != desired.template.serviceAccountName
    ensures !AdapterDone(s, desired, k)
  {
  }

  lemma TwoAreCounted(s: State, u: Subject, desired: Adapter, j: AdapterKey, k: AdapterKey)
    requires j != k && AdaptersOf(s, u) == {j} + {k} && desired.template.serviceAccountName != ""
    requires k in s.adapters && s.adapters[k].template.serviceAccountName != desired.template.serviceAccountName
    ensures HasTwo(s, u, desired, j, k)
  {
    OtherAccountIsNotDone(s, desired, k);
  }

  lemma SecondIsCreated(s: State, rcl: Instance, desired: Adapter, other: Adapter, u: Subject)
    requires !rcl.multiTenant && rcl in s.instancesSeen && u == Subject(rcl, rcl.uid, desired.backend)
    requires AdapterOwnersOf(rcl, None, other) && HasLabels(other.meta.labels, LookupLabels(rcl))
    requires other.backend == desired.backend && other.meta.name != desired.meta.name
    requires desired.template.serviceAccountName != "" && other.template.serviceAccountName != ""
    requires other.template.serviceAccountName != desired.template.serviceAccountName
    requires s.adapters.Keys == AdaptersOf(s, u) == {AdapterKey(desired.backend, desired.meta.name)}
    ensures Enabled(s, Creation(rcl, other))
    ensures HasTwo(Apply(s, Creation(rcl, other)), u, desired,
                   AdapterKey(desired.backend, desired.meta.name), AdapterKey(desired.backend, other.meta.name))
  {
    CreationOf(s, rcl, other, u);
    TwoAreCounted(Apply(s, Creation(rcl, other)), u, desired,
                  AdapterKey(desired.backend, desired.meta.name), AdapterKey(desired.backend, other.meta.name));
  }

  lemma TwoAreCreated(s: State, rcl: Instance, desired: Adapter, u: Subject)
    requires s.adapters == map[] && rcl in s.instancesSeen && !rcl.multiTenant && u == Subject(rcl, rcl.uid, desired.backend)
    requires AdapterOwnersOf(rcl, None, desired) && HasLabels(desired.meta.labels, LookupLabels(rcl))
    requires desired.template.serviceAccountName != ""
    ensures Enabled(s, Creation(rcl, desired)) && Enabled(Apply(s, Creation(rcl, desired)), Creation(rcl, Renamed(desired)))
    ensures HasTwo(Apply(Apply(s, Creation(rcl, desired)), Creation(rcl, Renamed(desired))), u, desired,
                   AdapterKey(desired.backend, desired.meta.name), AdapterKey(desired.backend, Renamed(desired).meta.name))
  {
    CreationOf(s, rcl, desired, u);
    assert |Renamed(desired).meta.name| == |desired.meta.name| + 2;
    assert |Renamed(desired).template.serviceAccountName| == |desired.template.serviceAccountName| + 2;
    SecondIsCreated(Apply(s, Creation(rcl, desired)), rcl, desired, Renamed(desired), u);
  }

  lemma RunOfTwo(s: State, e: Event, f: Event)
    requires Enabled(s, e) && Enabled(Apply(s, e), f)
    ensures IsRun(s, [e, f]) && After(s, [e, f]) == Apply(Apply(s, e), f)
  {
    RunOfOne(Apply(s, e), f);
    RunCons(s, e, [f]);
    assert [e] + [f] == [e, f];
  }

  lemma TwoAdaptersRun(rcl: Instance, desired: Adapter, u: Subject) returns (events: seq<Event>)
    requires CanStore(INITIAL, rcl) && rcl.uid == 1 && !rcl.multiTenant && u == Subject(rcl, 1, desired.backend)
    requires AdapterOwnersOf(rcl, None, desired) && HasLabels(desired.meta.labels, LookupLabels(rcl))
    requires desired.template.serviceAccountName != ""
    ensures IsRun(INITIAL, events)
    ensures HasTwo(After(INITIAL, events), u, desired,
                   AdapterKey(desired.backend, desired.meta.name), AdapterKey(desired.backend, Renamed(desired).meta.name))
  {
    var e, c, d := CreateInstance(rcl), Creation(rcl, desired), Creation(rcl, Renamed(desired));
    TwoAreCreated(Apply(INITIAL, e), rcl, desired, u);
    RunOfTwo(Apply(INITIAL, e), c, d);
    RunCons(INITIAL, e, [c, d]);
    events := [e] + [c, d];
  }

  /** After a reconcile that found `found`, a second one over the listing finds
      an adapter as well, and writes it. */
  ghost predicate WritesAgain(s: State, rcl: Instance, desired: Adapter, found: Option<AdapterKey>, listed: seq<Adapter>,
                              defaults: Adapter)
  {
    && (found.Some? ==> found.value in s.adapters)
    && var t, again := FreshAdapter(s, desired, found, defaults), FoundKey(listed, rcl, rcl.uid);
       && ListsAdapters(t, listed, desired.backend) && again.Some? && again.value in t.adapters
       && FreshAdapter(t, desired, again, defaults).adapters != t.adapters
  }

  /** With a second adapter in the namespace, which no run of the builder alone
      leaves there, the order of the lister may make a second reconcile write. */
  lemma SecondAdapterIsWritten(rcl: Instance, backend: Backend, namespace: string, sink: string, defaults: Adapter)
    requires CanStore(INITIAL, rcl) && rcl.uid == 1 && !rcl.multiTenant && AdapterAgreement.OverridesAgree(rcl)
    requires DesiredAccount(rcl, []).meta.name != ""
    ensures var desired := AdapterOptions.InstanceAdapter(backend, rcl, namespace, sink, []);
            exists events, first, second ::
              && IsRun(INITIAL, events) && ListsAdapters(After(INITIAL, events), first, backend)
              && WritesAgain(After(INITIAL, events), rcl, desired, FoundKey(first, rcl, 1), second, defaults)
  {
    var desired := AdapterOptions.InstanceAdapter(backend, rcl, namespace, sink, []);
    var u := Subject(rcl, 1, backend);
    AdapterAgreement.InstanceAdapterIsFound(backend, rcl, namespace, sink, []);
    AdapterAgreement.PodRunsAsReconciledAccount(backend, rcl, namespace, sink, [], []);
    BuiltCanBeReconciled(backend, rcl, namespace, sink, []);
    BuiltIsUnstamped(backend, rcl, namespace, sink, []);
    var events := TwoAdaptersRun(rcl, desired, u);
    var s := After(INITIAL, events);
    ReachableStatesSatisfyInv(events);
    var j, k := AdapterKey(backend, desired.meta.name), AdapterKey(backend, Renamed(desired).meta.name);
    var first := EachCanBeFound(s, u, j);
    OtherOrderWritesOther(s, u, desired, defaults, j, k);
    var second :| ListsAdapters(FreshAdapter(s, desired, Some(j), defaults), second, backend)
                  && FoundKey(second, rcl, 1) == Some(k);
    assert WritesAgain(s, rcl, desired, FoundKey(first, rcl, 1), second, defaults);
  }
}
