/** Safety of the ServiceAccounts over all runs: no lost owners, the boundary
    between managed and external accounts, and no early collection. */
module ClusterSafety {
  import opened Objects
  import opened Owners
  import opened Components
  import opened Semantic
  import opened Cluster
  import opened ClusterInvariant

  // ------------------------------------------------------------ no lost owners

  ghost function OwnerKeys(sa: ServiceAccount): set<ObjectKey>
  {
    ByKey(sa.meta.owners).Keys
  }

  /** The update that a sync commits, if the server accepts one. */
  ghost predicate Commits(s: State, e: Event, u: ServiceAccount)
    requires e.SyncAccount?
  {
    PlanSync(DesiredAccount(e.rcl, AccountOwners(e.rcl, e.listed)), e.cachedAccount, e.merged) == Update(u)
    && AcceptsAccount(s, u)
  }

  lemma SyncWritesOnlyByUpdate(s: State, e: Event)
    requires e.SyncAccount? && Enabled(s, e)
    ensures Apply(s, e).accounts == s.accounts || exists u :: Commits(s, e, u)
    ensures forall u :: Commits(s, e, u) ==> Apply(s, e).accounts == s.accounts[u.meta.name := UpdatedAccount(s, u)]
  {
    var plan := PlanSync(DesiredAccount(e.rcl, AccountOwners(e.rcl, e.listed)), e.cachedAccount, e.merged);
    if plan.Update? && AcceptsAccount(s, plan.account) {
      assert Commits(s, e, plan.account);
    }
  }

  lemma CommitReplacesCached(s: State, e: Event, u: ServiceAccount)
    requires e.SyncAccount? && Inv(s) && Enabled(s, e) && Commits(s, e, u)
    ensures s.accounts[u.meta.name] == e.cachedAccount
  {
    PlannedUpdate(e.rcl, AccountOwners(e.rcl, e.listed), e.cachedAccount, e.merged);
    AcceptedUpdateIsOfCached(s, e.cachedAccount, u);
  }

  lemma OthersLeaveAccounts(s: State, e: Event)
    requires Enabled(s, e) && IsReconcilerStep(e) && !e.SyncAccount?
    ensures forall n :: n in s.accounts ==> n in Apply(s, e).accounts && Apply(s, e).accounts[n] == s.accounts[n]
  {
  }

  /** The only write of a reconciler to a stored account is an accepted update
      of exactly the stored copy. */
  lemma ReconcilerWritesOnlyByUpdate(s: State, e: Event, n: string)
    requires Inv(s) && Enabled(s, e) && IsReconcilerStep(e) && n in s.accounts
    requires n !in Apply(s, e).accounts || Apply(s, e).accounts[n] != s.accounts[n]
    ensures e.SyncAccount? && e.cachedAccount == s.accounts[n]
    ensures exists u :: Commits(s, e, u) && u.meta.name == n && Apply(s, e).accounts == s.accounts[n := UpdatedAccount(s, u)]
  {
    if e.SyncAccount? {
      SyncWritesOnlyByUpdate(s, e);
      var u :| Commits(s, e, u);
      CommitReplacesCached(s, e, u);
    } else {
      OthersLeaveAccounts(s, e);
    }
  }

  /** A stored binding changes only by an update of exactly the stored copy:
      nobody's update is overwritten unseen. */
  lemma BindingsAreWrittenFromStoredCopy(s: State, e: Event)
    requires Inv(s) && Enabled(s, e) && IsReconcilerStep(e)
    ensures forall n <- s.bindings ::
              && n in Apply(s, e).bindings
              && (Apply(s, e).bindings[n] != s.bindings[n] ==>
                    e.SyncBinding? && e.cachedBinding == s.bindings[n]
                    && Apply(s, e).bindings[n].meta.uid == s.bindings[n].meta.uid)
  {
    if e.SyncBinding? {
      BindingWritesStoredCopy(s, DesiredBinding(e.rcl, e.sa, e.role), e.cachedBinding);
    } else {
      OthersLeaveBindings(s, e);
    }
  }

  lemma OthersLeaveBindings(s: State, e: Event)
    requires Enabled(s, e) && IsReconcilerStep(e) && !e.SyncBinding?
    ensures forall n <- s.bindings :: n in Apply(s, e).bindings && Apply(s, e).bindings[n] == s.bindings[n]
  {
  }

  lemma BindingWritesStoredCopy(s: State, desired: RoleBinding, cached: RoleBinding)
    requires BindingsOk(s) && cached in s.bindingsSeen
    ensures var t := ApplySyncBinding(s, desired, cached);
            forall n <- s.bindings :: n in t.bindings
              && (t.bindings[n] != s.bindings[n] ==> s.bindings[n] == cached && t.bindings[n].meta.uid == cached.meta.uid)
  {
  }

  /** The same for the adapters. */
  lemma AdaptersAreWrittenFromStoredCopy(s: State, e: Event)
    requires Inv(s) && Enabled(s, e) && IsReconcilerStep(e)
    ensures forall k <- s.adapters ::
              && k in Apply(s, e).adapters
              && (Apply(s, e).adapters[k] != s.adapters[k] ==>
                    e.SyncAdapter? && e.cachedAdapter == s.adapters[k]
                    && Apply(s, e).adapters[k].meta.uid == s.adapters[k].meta.uid)
  {
    if e.SyncAdapter? {
      AdapterWritesStoredCopy(s, e.desired, e.cachedAdapter, e.defaults);
    } else {
      OthersLeaveAdapters(s, e);
    }
  }

  lemma OthersLeaveAdapters(s: State, e: Event)
    requires Enabled(s, e) && IsReconcilerStep(e) && !e.SyncAdapter?
    ensures forall k <- s.adapters :: k in Apply(s, e).adapters && Apply(s, e).adapters[k] == s.adapters[k]
  {
  }

  lemma AdapterWritesStoredCopy(s: State, desired: Adapter, cached: Adapter, defaults: Adapter)
    requires AdaptersOk(s) && cached in s.adaptersSeen
    ensures var t := ApplySyncAdapter(s, desired, cached, defaults);
            forall k <- s.adapters :: k in t.adapters
              && (t.adapters[k] != s.adapters[k] ==> s.adapters[k] == cached && t.adapters[k].meta.uid == cached.meta.uid)
  {
  }

  /** However stale its cached copy is, no reconciler step removes an owner. */
  lemma ReconcilerStepLosesNoOwner(s: State, e: Event, n: string)
    requires Inv(s) && Enabled(s, e) && IsReconcilerStep(e) && n in s.accounts
    ensures n in Apply(s, e).accounts
    ensures OwnerKeys(s.accounts[n]) <= OwnerKeys(Apply(s, e).accounts[n])
  {
    if n !in Apply(s, e).accounts || Apply(s, e).accounts[n] != s.accounts[n] {
      ReconcilerWritesOnlyByUpdate(s, e, n);
      var desired := DesiredAccount(e.rcl, AccountOwners(e.rcl, e.listed));
      PlannedUpdate(e.rcl, AccountOwners(e.rcl, e.listed), e.cachedAccount, e.merged);
      MergeRefinesOverride(e.cachedAccount.meta.owners, desired.meta.owners, e.merged);
    }
  }

  predicate TouchesAsCollector(e: Event, n: string)
  {
    e == CollectAccount(n) || e == PruneAccount(n)
  }

  lemma StepLosesNoOwner(s: State, e: Event, n: string)
    requires Inv(s) && Enabled(s, e) && !TouchesAsCollector(e, n) && n in s.accounts
    ensures n in Apply(s, e).accounts
    ensures OwnerKeys(s.accounts[n]) <= OwnerKeys(Apply(s, e).accounts[n])
  {
    if IsReconcilerStep(e) {
      ReconcilerStepLosesNoOwner(s, e, n);
    }
  }

  /** Over any run, only the garbage collector can take an owner from an
      account. */
  lemma {:induction false} RunLosesNoOwner(s: State, events: seq<Event>, n: string)
    requires Inv(s) && IsRun(s, events) && n in s.accounts
    requires forall e :: e in events ==> !TouchesAsCollector(e, n)
    ensures n in After(s, events).accounts
    ensures OwnerKeys(s.accounts[n]) <= OwnerKeys(After(s, events).accounts[n])
    decreases |events|
  {
    if events != [] {
      StepKeepsInv(s, events[0]);
      assert events[0] in events;
      StepLosesNoOwner(s, events[0], n);
      RunLosesNoOwner(Apply(s, events[0]), events[1..], n);
    }
  }

  // ------------------------------------------------------ managed and external

  /** What a reconciler step leaves alone in a stored account. */
  ghost predicate RespectsAccount(before: ServiceAccount, after: ServiceAccount)
  {
    && after.meta.name == before.meta.name && after.meta.uid == before.meta.uid
    && Managed(after) == Managed(before)
    && (!Managed(before) ==> after == before)
    && after.secrets == before.secrets && after.imagePullSecrets == before.imagePullSecrets
    && (|before.meta.owners| > 1 ==>
          |after.meta.owners| >= |before.meta.owners|
          && after.meta.labels == before.meta.labels && after.meta.annotations == before.meta.annotations)
  }

  lemma MergeOfDistinctGrows(current: seq<OwnerReference>, desired: seq<OwnerReference>, merged: seq<OwnerReference>)
    requires Lists(merged, Merged(current, desired)) && DistinctKeys(current)
    ensures |merged| >= |current|
  {
    MergeRefinesOverride(current, desired, merged);
    DistinctKeysAreKept(current);
    assert (ByKey(current) + ByKey(desired)).Keys == ByKey(current).Keys + ByKey(desired).Keys;
    SubsetSize(ByKey(current).Keys, Merged(current, desired).Keys);
  }

  /** External accounts are never updated, managed ones stay managed, secrets
      never change and neither do the labels and annotations of an account
      with several owners. */
  lemma ReconcilerRespectsAccounts(s: State, e: Event, n: string)
    requires Inv(s) && Enabled(s, e) && IsReconcilerStep(e) && n in s.accounts
    ensures n in Apply(s, e).accounts && RespectsAccount(s.accounts[n], Apply(s, e).accounts[n])
  {
    if n !in Apply(s, e).accounts || Apply(s, e).accounts[n] != s.accounts[n] {
      ReconcilerWritesOnlyByUpdate(s, e, n);
      var owners := AccountOwners(e.rcl, e.listed);
      PlannedUpdate(e.rcl, owners, e.cachedAccount, e.merged);
      assert AccountShape(s, s.accounts[n]);
      MergeOfDistinctGrows(e.cachedAccount.meta.owners, DesiredAccount(e.rcl, owners).meta.owners, e.merged);
    }
  }

  predicate EditsAccount(e: Event, n: string)
  {
    TouchesAsCollector(e, n) || (e.ReplaceSecrets? && e.name == n)
  }

  lemma OthersRespectAccounts(s: State, e: Event, n: string)
    requires Inv(s) && Enabled(s, e) && !IsReconcilerStep(e) && !EditsAccount(e, n) && n in s.accounts
    ensures n in Apply(s, e).accounts && Apply(s, e).accounts[n] == s.accounts[n]
  {
  }

  /** The same over every run, whatever users, the collector and reconcilers do
      in between, as long as no user replaces the secrets of this account and
      the collector leaves it alone. */
  lemma {:induction false} RunRespectsAccounts(s: State, events: seq<Event>, n: string)
    requires Inv(s) && IsRun(s, events) && n in s.accounts
    requires forall e :: e in events ==> !EditsAccount(e, n)
    ensures n in After(s, events).accounts && RespectsAccount(s.accounts[n], After(s, events).accounts[n])
    decreases |events|
  {
    if events != [] {
      StepKeepsInv(s, events[0]);
      assert events[0] in events;
      if IsReconcilerStep(events[0]) {
        ReconcilerRespectsAccounts(s, events[0], n);
      } else {
        OthersRespectAccounts(s, events[0], n);
      }
      RunRespectsAccounts(Apply(s, events[0]), events[1..], n);
    }
  }

  /** Being managed is settled when an account is created: every later copy of
      it agrees, whoever wrote it. */
  lemma ManagedIsForLife(events: seq<Event>, a: ServiceAccount, b: ServiceAccount)
    requires IsRun(INITIAL, events)
    requires a in After(INITIAL, events).accountsSeen && b in After(INITIAL, events).accountsSeen
    requires a.meta.uid == b.meta.uid
    ensures Managed(a) == Managed(b) && a.meta.name == b.meta.name
  {
    ReachableStatesSatisfyInv(events);
  }

  // -------------------------------------------------------- no early collection

  /** The account holds the owner `k` under the UID `uid`. */
  ghost predicate Holds(sa: ServiceAccount, k: ObjectKey, uid: nat)
  {
    k in ByKey(sa.meta.owners) && ByKey(sa.meta.owners)[k].uid == uid
  }

  /** The stored account is still the one that `h` is a copy of, is managed,
      and holds the live instance `k`. */
  ghost predicate StillHeld(s: State, h: ServiceAccount, k: ObjectKey)
    requires k in s.instances
  {
    && h.meta.name in s.accounts
    && s.accounts[h.meta.name].meta.uid == h.meta.uid
    && Managed(s.accounts[h.meta.name])
    && Holds(s.accounts[h.meta.name], k, s.instances[k].uid)
  }

  /** Once a managed account of the name `n` was seen to hold a live instance, it
      keeps it. */
  ghost predicate HeldForever(s: State, n: string)
  {
    forall h, k :: (h in s.accountsSeen && h.meta.name == n && Managed(h)
                    && k in s.instances && Holds(h, k, s.instances[k].uid)) ==> StillHeld(s, h, k)
  }

  /** No account in the list stands for an instance that was re-created, and
      the reconciled instance is listed while it lives. */
  ghost predicate ListIsCurrent(s: State, rcl: Instance, owners: seq<Instance>)
  {
    && (forall i :: i in owners && InstanceKey(i) in s.instances ==> s.instances[InstanceKey(i)].uid == i.uid)
    && (InstanceKey(rcl) in s.instances && s.instances[InstanceKey(rcl)].uid == rcl.uid ==>
          exists i :: i in owners && InstanceKey(i) == InstanceKey(rcl))
  }

  /** A reconcile's step for the account `n` that has an effect: what the server
      rejects does not matter, nor do steps for other accounts. */
  ghost predicate ReconcilesAccount(s: State, e: Event, n: string)
    requires Enabled(s, e)
  {
    && (e.CreateAccount? || e.SyncAccount?) && Apply(s, e) != s
    && DesiredAccount(e.rcl, AccountOwners(e.rcl, e.listed)).meta.name == n
  }

  /** A step whose instance list, if it reconciles the account from one, is
      current when it commits. */
  ghost predicate Current(s: State, e: Event, n: string)
    requires Enabled(s, e)
  {
    ReconcilesAccount(s, e, n) ==> ListIsCurrent(s, e.rcl, AccountOwners(e.rcl, e.listed))
  }

  ghost predicate IsCurrentRun(s: State, events: seq<Event>, n: string)
    requires IsRun(s, events)
    decreases |events|
  {
    events == [] || (Current(s, events[0], n) && IsCurrentRun(Apply(s, events[0]), events[1..], n))
  }

  lemma HeldUidIsAnOwner(sa: ServiceAccount, k: ObjectKey, uid: nat)
    requires Holds(sa, k, uid)
    ensures exists r :: r in sa.meta.owners && r.uid == uid && OwnerKey(r) == k
  {
    ByKeyHolds(sa.meta.owners, k);
  }

  /** An account that holds a live instance is not collected. */
  lemma HeldIsNotCollectible(s: State, sa: ServiceAccount, k: ObjectKey)
    requires k in s.instances && Holds(sa, k, s.instances[k].uid)
    ensures !Collectible(s, sa.meta.owners)
  {
    HeldUidIsAnOwner(sa, k, s.instances[k].uid);
    assert UidIsLive(s, s.instances[k].uid);
  }

  /** Replacing a stored account keeps all holdings when the new copy holds
      every live instance that the replaced one held. */
  lemma ReplacementKeepsHeld(s: State, sa: ServiceAccount, n: string)
    requires Inv(s) && HeldForever(s, n)
    requires sa.meta.name in s.accounts && s.accounts[sa.meta.name].meta.uid == sa.meta.uid
    requires Managed(s.accounts[sa.meta.name]) == Managed(sa)
    requires forall k :: (sa.meta.name == n && Managed(sa)
                          && k in s.instances && Holds(s.accounts[sa.meta.name], k, s.instances[k].uid)) ==>
                           Holds(sa, k, s.instances[k].uid)
    ensures HeldForever(PutAccount(s, sa), n)
  {
    var s' := PutAccount(s, sa);
    forall h, k | h in s'.accountsSeen && h.meta.name == n && Managed(h)
                  && k in s'.instances && Holds(h, k, s'.instances[k].uid)
      ensures StillHeld(s', h, k)
    {
      if h in s.accountsSeen {
        assert StillHeld(s, h, k);
      }
    }
  }

  /** A name that is free was held by no live instance. */
  lemma CreationKeepsHeld(s: State, sa: ServiceAccount, n: string)
    requires Inv(s) && HeldForever(s, n) && sa.meta.name !in s.accounts
    ensures HeldForever(PutAccount(s, sa), n)
  {
    var s' := PutAccount(s, sa);
    forall h, k | h in s'.accountsSeen && h.meta.name == n && Managed(h)
                  && k in s'.instances && Holds(h, k, s'.instances[k].uid)
      ensures StillHeld(s', h, k)
    {
      if h in s.accountsSeen {
        assert StillHeld(s, h, k);
      }
    }
  }

  /** A merge with a current list keeps every live instance that was held. */
  lemma CurrentMergeKeepsHeld(s: State, rcl: Instance, owners: seq<Instance>, cached: ServiceAccount,
                              merged: seq<OwnerReference>, sa: ServiceAccount, k: ObjectKey)
    requires ListIsCurrent(s, rcl, owners)
    requires Lists(merged, Merged(cached.meta.owners, OwnerRefs(owners))) && sa.meta.owners == merged
    requires k in s.instances && Holds(cached, k, s.instances[k].uid)
    ensures Holds(sa, k, s.instances[k].uid)
  {
    MergeRefinesOverride(cached.meta.owners, OwnerRefs(owners), merged);
    ByKeyHolds(OwnerRefs(owners), k);
    if k in ByKey(OwnerRefs(owners)) {
      var r := ByKey(OwnerRefs(owners))[k];
      var j :| 0 <= j < |owners| && OwnerRefs(owners)[j] == r;
      assert owners[j] in owners && InstanceKey(owners[j]) == k;
    }
  }

  lemma SyncKeepsHeld(s: State, rcl: Instance, owners: seq<Instance>, cached: ServiceAccount, merged: seq<OwnerReference>,
                      n: string)
    requires Inv(s) && HeldForever(s, n) && cached in s.accountsSeen
    requires DesiredAccount(rcl, owners).meta.name == n ==> ListIsCurrent(s, rcl, owners)
    requires Lists(merged, Merged(cached.meta.owners, OwnerRefs(owners)))
    ensures HeldForever(ApplySyncAccount(s, rcl, DesiredAccount(rcl, owners), cached, merged), n)
  {
    match PlanSync(DesiredAccount(rcl, owners), cached, merged)
    case Keep => UntouchedKeepsHeld(s, Return(s, rcl, cached), n);
    case Update(u) =>
      if AcceptsAccount(s, u) {
        CommitKeepsHeld(s, rcl, owners, cached, merged, n);
        UntouchedKeepsHeld(PutAccount(s, UpdatedAccount(s, u)),
                           Return(PutAccount(s, UpdatedAccount(s, u)), rcl, UpdatedAccount(s, u)), n);
      }
  }

  lemma CommitKeepsHeld(s: State, rcl: Instance, owners: seq<Instance>, cached: ServiceAccount, merged: seq<OwnerReference>,
                        n: string)
    requires Inv(s) && HeldForever(s, n) && cached in s.accountsSeen
    requires DesiredAccount(rcl, owners).meta.name == n ==> ListIsCurrent(s, rcl, owners)
    requires Lists(merged, Merged(cached.meta.owners, OwnerRefs(owners)))
    requires var plan := PlanSync(DesiredAccount(rcl, owners), cached, merged);
             plan.Update? && AcceptsAccount(s, plan.account)
    ensures HeldForever(PutAccount(s, UpdatedAccount(s, PlanSync(DesiredAccount(rcl, owners), cached, merged).account)), n)
  {
    var u := PlanSync(DesiredAccount(rcl, owners), cached, merged).account;
    PlannedUpdate(rcl, owners, cached, merged);
    AcceptedUpdateIsOfCached(s, cached, u);
    forall k | u.meta.name == n && k in s.instances && Holds(cached, k, s.instances[k].uid)
      ensures Holds(UpdatedAccount(s, u), k, s.instances[k].uid)
    {
      CurrentMergeKeepsHeld(s, rcl, owners, cached, merged, UpdatedAccount(s, u), k);
    }
    ReplacementKeepsHeld(s, UpdatedAccount(s, u), n);
  }

  /** A UID that was not handed out yet is held by no copy. */
  lemma FreshUidIsNotHeld(s: State, h: ServiceAccount, k: ObjectKey, uid: nat)
    requires Inv(s) && h in s.accountsSeen && Managed(h) && uid >= s.clock
    ensures !Holds(h, k, uid)
  {
    assert AccountShape(s, h);
    ByKeyHolds(h.meta.owners, k);
    if k in ByKey(h.meta.owners) {
      assert RefersToInstance(s, ByKey(h.meta.owners)[k]);
    }
  }

  lemma NewInstanceIsNotHeld(s: State, i: Instance, n: string)
    requires Inv(s) && HeldForever(s, n) && Enabled(s, CreateInstance(i))
    ensures HeldForever(Apply(s, CreateInstance(i)), n)
  {
    var s' := Apply(s, CreateInstance(i));
    forall h, k | h in s'.accountsSeen && h.meta.name == n && Managed(h)
                  && k in s'.instances && Holds(h, k, s'.instances[k].uid)
      ensures StillHeld(s', h, k)
    {
      FreshUidIsNotHeld(s, h, k, i.uid);
      assert StillHeld(s, h, k);
    }
  }

  lemma LiveOwnersHold(s: State, sa: ServiceAccount, pruned: ServiceAccount, k: ObjectKey)
    requires DistinctKeys(sa.meta.owners) && pruned.meta.owners == LiveOwners(s, sa.meta.owners)
    requires k in s.instances && Holds(sa, k, s.instances[k].uid)
    ensures Holds(pruned, k, s.instances[k].uid)
  {
    LiveOwnersAreOwners(s, sa.meta.owners);
    HeldUidIsAnOwner(sa, k, s.instances[k].uid);
    var r :| r in sa.meta.owners && r.uid == s.instances[k].uid && OwnerKey(r) == k;
    assert UidIsLive(s, r.uid);
    assert r in pruned.meta.owners;
    DistinctKeysAreKept(pruned.meta.owners);
  }

  lemma PruneKeepsHeld(s: State, m: string, n: string)
    requires Inv(s) && HeldForever(s, n) && Enabled(s, PruneAccount(m))
    ensures HeldForever(Apply(s, PruneAccount(m)), n)
  {
    var sa := s.accounts[m];
    var pruned := sa.(meta := sa.meta.(version := s.clock, owners := LiveOwners(s, sa.meta.owners)));
    assert AccountShape(s, sa);
    forall k | Managed(pruned) && k in s.instances && Holds(sa, k, s.instances[k].uid)
      ensures Holds(pruned, k, s.instances[k].uid)
    {
      LiveOwnersHold(s, sa, pruned, k);
    }
    ReplacementKeepsHeld(s, pruned, n);
  }

  lemma CollectKeepsHeld(s: State, m: string, n: string)
    requires Inv(s) && HeldForever(s, n) && Enabled(s, CollectAccount(m))
    ensures HeldForever(Apply(s, CollectAccount(m)), n)
  {
    var s' := Apply(s, CollectAccount(m));
    forall h, k | h in s'.accountsSeen && h.meta.name == n && Managed(h)
                  && k in s'.instances && Holds(h, k, s'.instances[k].uid)
      ensures StillHeld(s', h, k)
    {
      assert StillHeld(s, h, k);
      if m == n {
        HeldIsNotCollectible(s, s.accounts[n], k);
      }
    }
  }

  lemma OutsideStepKeepsHeld(s: State, e: Event, n: string)
    requires Inv(s) && HeldForever(s, n) && Enabled(s, e) && !IsReconcilerStep(e)
    ensures HeldForever(Apply(s, e), n)
  {
    if e.CreateInstance? {
      NewInstanceIsNotHeld(s, e.instance, n);
    } else if e.CreateExternalAccount? {
      CreationKeepsHeld(s, e.account, n);
    } else if e.ReplaceSecrets? {
      var sa := s.accounts[e.name];
      ReplacementKeepsHeld(s, ServiceAccount(sa.meta.(version := s.clock), e.secrets, e.imagePullSecrets), n);
    } else if e.PruneAccount? {
      PruneKeepsHeld(s, e.name, n);
    } else if e.CollectAccount? {
      CollectKeepsHeld(s, e.name, n);
    } else {
      UntouchedKeepsHeld(s, Apply(s, e), n);
    }
  }

  lemma CreateAccountKeepsHeld(s: State, e: Event, n: string)
    requires e.CreateAccount? && Inv(s) && HeldForever(s, n) && Enabled(s, e)
    ensures HeldForever(Apply(s, e), n)
  {
    var d := DesiredAccount(e.rcl, AccountOwners(e.rcl, e.listed));
    var sa := d.(meta := Stamp(d.meta, s.clock, s.clock));
    CreationKeepsHeld(s, sa, n);
    UntouchedKeepsHeld(PutAccount(s, sa), Return(PutAccount(s, sa), e.rcl, sa), n);
  }

  lemma SyncAccountKeepsHeld(s: State, e: Event, n: string)
    requires e.SyncAccount? && Inv(s) && HeldForever(s, n) && Enabled(s, e) && Current(s, e, n)
    ensures HeldForever(Apply(s, e), n)
  {
    var owners := AccountOwners(e.rcl, e.listed);
    DesiredAccountShape(e.rcl, owners);
    if Apply(s, e) != s {
      SyncKeepsHeld(s, e.rcl, owners, e.cachedAccount, e.merged, n);
    }
  }

  lemma StepKeepsHeld(s: State, e: Event, n: string)
    requires Inv(s) && HeldForever(s, n) && Enabled(s, e) && Current(s, e, n)
    ensures HeldForever(Apply(s, e), n)
  {
    if !IsReconcilerStep(e) {
      OutsideStepKeepsHeld(s, e, n);
    } else if e.CreateAccount? {
      CreateAccountKeepsHeld(s, e, n);
    } else if e.SyncAccount? {
      SyncAccountKeepsHeld(s, e, n);
    } else {
      DependentStepLeavesAccounts(s, e);
      UntouchedKeepsHeld(s, Apply(s, e), n);
    }
  }

  lemma DependentStepLeavesAccounts(s: State, e: Event)
    requires Enabled(s, e) && IsReconcilerStep(e) && !e.CreateAccount? && !e.SyncAccount?
    ensures Apply(s, e).accounts == s.accounts && Apply(s, e).accountsSeen == s.accountsSeen
    ensures Apply(s, e).instances == s.instances && Apply(s, e).returned == s.returned
  {
  }

  lemma UntouchedKeepsHeld(s: State, s': State, n: string)
    requires HeldForever(s, n) && s'.accounts == s.accounts && s'.accountsSeen == s.accountsSeen
    requires forall k :: k in s'.instances ==> k in s.instances && s'.instances[k].uid == s.instances[k].uid
    ensures HeldForever(s', n)
  {
    forall h, k | h in s'.accountsSeen && h.meta.name == n && Managed(h)
                  && k in s'.instances && Holds(h, k, s'.instances[k].uid)
      ensures StillHeld(s', h, k)
    {
      assert StillHeld(s, h, k);
    }
  }

  /** A committed update keeps every live instance that the account held
      exactly when no listed instance was re-created as one of them. */
  lemma CommitKeepsHoldingsExactlyWhenListIsCurrent(
      s: State, rcl: Instance, owners: seq<Instance>, cached: ServiceAccount, merged: seq<OwnerReference>)
    requires DistinctNames(owners)
    requires Lists(merged, Merged(cached.meta.owners, OwnerRefs(owners)))
    ensures (forall k :: k in s.instances && k in ByKey(cached.meta.owners)
                         && ByKey(cached.meta.owners)[k].uid == s.instances[k].uid ==>
                           k in ByKey(merged) && ByKey(merged)[k].uid == s.instances[k].uid)
            <==>
            (forall i :: i in owners && InstanceKey(i) in s.instances && Holds(cached, InstanceKey(i), s.instances[InstanceKey(i)].uid)
                         ==> i.uid == s.instances[InstanceKey(i)].uid)
  {
    MergeRefinesOverride(cached.meta.owners, OwnerRefs(owners), merged);
    forall i | i in owners
      ensures InstanceKey(i) in ByKey(merged) && ByKey(merged)[InstanceKey(i)].uid == i.uid
    {
      ListedOwnerWins(owners, i);
    }
    forall k | k in ByKey(OwnerRefs(owners))
      ensures exists i :: i in owners && InstanceKey(i) == k
    {
      ByKeyHolds(OwnerRefs(owners), k);
      var j :| 0 <= j < |owners| && OwnerRefs(owners)[j] == ByKey(OwnerRefs(owners))[k];
      assert owners[j] in owners;
    }
  }

  lemma ListedOwnerWins(owners: seq<Instance>, i: Instance)
    requires DistinctNames(owners) && i in owners
    ensures InstanceKey(i) in ByKey(OwnerRefs(owners)) && ByKey(OwnerRefs(owners))[InstanceKey(i)] == InstanceRef(i, false)
  {
    var refs := OwnerRefs(owners);
    forall x, y | 0 <= x < y < |refs|
      ensures OwnerKey(refs[x]) != OwnerKey(refs[y])
    {
      assert InstanceKey(owners[x]) != InstanceKey(owners[y]);
    }
    DistinctKeysAreKept(refs);
    var j :| 0 <= j < |owners| && owners[j] == i;
    assert refs[j] == InstanceRef(i, false);
    assert refs[j] in refs;
  }
}
