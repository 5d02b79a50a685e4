/** What a live instance whose RBAC objects were reconciled can rely on: its
    account, the bindings of that account and the adapters it controls are
    never collected. */
module ClusterDependents {
  import opened Wrappers
  import opened Objects
  import opened Owners
  import opened Components
  import opened Semantic
  import opened Cluster
  import opened ClusterInvariant
  import opened ClusterSafety

  // ------------------------------------------------------------------ bindings

  function BindingOwner(b: RoleBinding): nat
  {
    if b.meta.owners == [] then 0 else b.meta.owners[0].uid
  }

  ghost predicate AccountLives(s: State, name: string, uid: nat)
  {
    name in s.accounts && s.accounts[name].meta.uid == uid
  }

  ghost predicate BindingKept(s: State, b: RoleBinding)
  {
    b.meta.name in s.bindings && BindingOwner(s.bindings[b.meta.name]) == BindingOwner(b)
  }

  /** A binding of the account name `n` whose account lives is stored and still
      owned by it. */
  ghost predicate BindingsHeld(s: State, n: string)
  {
    forall b :: b in s.bindingsSeen && b.subject == n && AccountLives(s, n, BindingOwner(b)) ==> BindingKept(s, b)
  }

  /** A sync of a binding of `n` goes by the account that is stored when it
      commits, if one is. */
  ghost predicate BindsCurrentAccount(s: State, e: Event, n: string)
  {
    e.SyncBinding? && e.sa.meta.name == n && n in s.accounts ==> s.accounts[n].meta.uid == e.sa.meta.uid
  }

  /** The name of a binding tells which account it is for. */
  lemma SameNameSameSubject(s: State, a: RoleBinding, b: RoleBinding)
    requires BindingShape(s, a) && BindingShape(s, b) && a.meta.name == b.meta.name
    ensures a.subject == b.subject
  {
    if a.meta.name == a.subject + "-config-watcher" && b.meta.name == b.subject + "-config-watcher" {
      ConfigWatcherNamesAreInjective(a.subject, b.subject);
    } else if IsSharedName(a.meta.name) {
      var kind :| a.meta.name == MTAdapterObjectName(kind);
      BindingNamesAreSeparate(a.subject, kind);
      BindingNamesAreSeparate(b.subject, kind);
    }
  }

  /** Storing a binding keeps the other copies held, when its name is free or
      its owner is the stored account. */
  lemma BindingPutKeepsHeld(s: State, b: RoleBinding, n: string)
    requires Inv(s) && BindingsHeld(s, n) && BindingShape(s, b)
    requires b.meta.name in s.bindings && b.subject == n && n in s.accounts ==> s.accounts[n].meta.uid == BindingOwner(b)
    ensures BindingsHeld(PutBinding(s, b), n)
  {
    var s' := PutBinding(s, b);
    forall x | x in s'.bindingsSeen && x.subject == n && AccountLives(s', n, BindingOwner(x))
      ensures BindingKept(s', x)
    {
      if x in s.bindingsSeen {
        assert BindingShape(s, x);
        assert BindingKept(s, x);
        if x.meta.name == b.meta.name {
          SameNameSameSubject(s, x, b);
        }
      }
    }
  }

  lemma KeptBindingIsNotCollectible(s: State, b: RoleBinding)
    requires BindingKept(s, b) && s.bindings[b.meta.name].meta.owners != []
    requires AccountLives(s, b.subject, BindingOwner(b))
    ensures !Collectible(s, s.bindings[b.meta.name].meta.owners)
  {
    var stored := s.bindings[b.meta.name];
    assert stored.meta.owners[0] in stored.meta.owners;
    assert UidIsLive(s, stored.meta.owners[0].uid);
  }

  lemma HeldBindingIsNotCollectible(s: State, b: RoleBinding)
    requires Inv(s) && BindingsHeld(s, b.subject) && b in s.bindingsSeen && AccountLives(s, b.subject, BindingOwner(b))
    ensures BindingKept(s, b) && !Collectible(s, s.bindings[b.meta.name].meta.owners)
  {
    assert BindingKept(s, b);
    BindingOwnerIsOld(s, s.bindings[b.meta.name]);
    KeptBindingIsNotCollectible(s, b);
  }

  lemma CollectBindingKeepsHeld(s: State, name: string, n: string)
    requires Inv(s) && BindingsHeld(s, n) && name in s.bindings && Collectible(s, s.bindings[name].meta.owners)
    ensures BindingsHeld(s.(bindings := s.bindings - {name}), n)
  {
    var s' := s.(bindings := s.bindings - {name});
    forall b | b in s.bindingsSeen && b.subject == n && AccountLives(s', n, BindingOwner(b))
      ensures BindingKept(s', b)
    {
      HeldBindingIsNotCollectible(s, b);
    }
  }

  /** Accounts only come to life under UIDs that no binding refers to. */
  lemma NoAccountRevivedKeepsHeld(s: State, s': State, n: string)
    requires BindingsHeld(s, n) && s'.bindings == s.bindings && s'.bindingsSeen == s.bindingsSeen
    requires forall b :: b in s.bindingsSeen && AccountLives(s', n, BindingOwner(b)) ==> AccountLives(s, n, BindingOwner(b))
    ensures BindingsHeld(s', n)
  {
    forall b | b in s'.bindingsSeen && b.subject == n && AccountLives(s', n, BindingOwner(b))
      ensures BindingKept(s', b)
    {
      assert BindingKept(s, b);
    }
  }

  lemma BindingOwnerIsOld(s: State, b: RoleBinding)
    requires Inv(s) && b in s.bindingsSeen
    ensures 0 < BindingOwner(b) < s.clock && |b.meta.owners| == 1
  {
    assert BindingShape(s, b);
    var a :| a in s.accountsSeen && BoundTo(a, b);
  }

  /** What a step can do to the accounts: keep their UIDs, drop some, or add
      one under a fresh UID. */
  ghost predicate AccountUidsAreOldOrFresh(s: State, s': State)
  {
    forall n :: n in s'.accounts ==>
                  (n in s.accounts && s.accounts[n].meta.uid == s'.accounts[n].meta.uid)
                  || s'.accounts[n].meta.uid == s.clock
  }

  lemma StepAccountUids(s: State, e: Event)
    requires AccountsOk(s) && Enabled(s, e)
    ensures AccountUidsAreOldOrFresh(s, Apply(s, e))
  {
    if e.SyncAccount? {
      SyncWritesOnlyByUpdate(s, e);
    }
  }

  predicate TouchesBindings(e: Event)
  {
    e.CreateBinding? || e.SyncBinding? || e.CollectBinding?
  }

  predicate TouchesAdapters(e: Event)
  {
    e.CreateAdapter? || e.SyncAdapter? || e.CollectAdapter?
  }

  lemma OutsideStepLeavesDependents(s: State, e: Event)
    requires Enabled(s, e) && !IsReconcilerStep(e)
    ensures !TouchesBindings(e) ==> Apply(s, e).bindings == s.bindings && Apply(s, e).bindingsSeen == s.bindingsSeen
    ensures !TouchesAdapters(e) ==> Apply(s, e).adapters == s.adapters && Apply(s, e).adaptersSeen == s.adaptersSeen
  {
  }

  lemma AccountStepLeavesDependents(s: State, e: Event)
    requires Enabled(s, e) && (e.CreateAccount? || e.SyncAccount?)
    ensures Apply(s, e).bindings == s.bindings && Apply(s, e).bindingsSeen == s.bindingsSeen
    ensures Apply(s, e).adapters == s.adapters && Apply(s, e).adaptersSeen == s.adaptersSeen
  {
  }

  lemma DependentStepLeavesOthers(s: State, e: Event)
    requires Enabled(s, e) && (e.CreateBinding? || e.SyncBinding? || e.CreateAdapter? || e.SyncAdapter?)
    ensures !TouchesBindings(e) ==> Apply(s, e).bindings == s.bindings && Apply(s, e).bindingsSeen == s.bindingsSeen
    ensures !TouchesAdapters(e) ==> Apply(s, e).adapters == s.adapters && Apply(s, e).adaptersSeen == s.adaptersSeen
  {
  }

  lemma StepLeavesDependents(s: State, e: Event)
    requires Enabled(s, e)
    ensures !TouchesBindings(e) ==> Apply(s, e).bindings == s.bindings && Apply(s, e).bindingsSeen == s.bindingsSeen
    ensures !TouchesAdapters(e) ==> Apply(s, e).adapters == s.adapters && Apply(s, e).adaptersSeen == s.adaptersSeen
  {
    if !IsReconcilerStep(e) {
      OutsideStepLeavesDependents(s, e);
    } else if e.CreateAccount? || e.SyncAccount? {
      AccountStepLeavesDependents(s, e);
    } else {
      DependentStepLeavesOthers(s, e);
    }
  }

  lemma CreateBindingKeepsHeld(s: State, rcl: Instance, sa: ServiceAccount, role: BindingRole, n: string)
    requires Inv(s) && BindingsHeld(s, n) && Enabled(s, CreateBinding(rcl, sa, role))
    ensures BindingsHeld(Apply(s, CreateBinding(rcl, sa, role)), n)
  {
    var d := DesiredBinding(rcl, sa, role);
    var b := d.(meta := Stamp(d.meta, s.clock, s.clock));
    DesiredBindingOk(s, rcl, sa, role);
    assert BoundTo(sa, b);
    assert ReturnedOk(s, rcl, sa);
    BindingPutKeepsHeld(s, b, n);
  }

  lemma SyncBindingKeepsHeld(s: State, rcl: Instance, sa: ServiceAccount, role: BindingRole, cached: RoleBinding, n: string)
    requires Inv(s) && BindingsHeld(s, n) && Enabled(s, SyncBinding(rcl, sa, role, cached))
    requires sa.meta.name == n && n in s.accounts ==> s.accounts[n].meta.uid == sa.meta.uid
    ensures BindingsHeld(Apply(s, SyncBinding(rcl, sa, role, cached)), n)
  {
    var d := DesiredBinding(rcl, sa, role);
    var update := d.(meta := d.meta.(version := cached.meta.version));
    if !BindingEqual(d, cached) && AcceptsBinding(s, update) {
      var b := update.(meta := Stamp(update.meta, s.bindings[update.meta.name].meta.uid, s.clock));
      DesiredBindingOk(s, rcl, sa, role);
      assert BoundTo(sa, b);
      assert ReturnedOk(s, rcl, sa);
      BindingPutKeepsHeld(s, b, n);
    }
  }

  lemma StepKeepsBindingsHeld(s: State, e: Event, n: string)
    requires Inv(s) && BindingsHeld(s, n) && Enabled(s, e) && BindsCurrentAccount(s, e, n)
    ensures BindingsHeld(Apply(s, e), n)
  {
    if e.CreateBinding? {
      CreateBindingKeepsHeld(s, e.rcl, e.sa, e.role, n);
    } else if e.SyncBinding? {
      SyncBindingKeepsHeld(s, e.rcl, e.sa, e.role, e.cachedBinding, n);
    } else if e.CollectBinding? {
      CollectBindingKeepsHeld(s, e.name, n);
    } else {
      OtherStepKeepsBindingsHeld(s, e, n);
    }
  }

  lemma OtherStepKeepsBindingsHeld(s: State, e: Event, n: string)
    requires Inv(s) && BindingsHeld(s, n) && Enabled(s, e) && !TouchesBindings(e)
    ensures BindingsHeld(Apply(s, e), n)
  {
    var s' := Apply(s, e);
    StepAccountUids(s, e);
    StepLeavesDependents(s, e);
    forall b | b in s.bindingsSeen && AccountLives(s', n, BindingOwner(b))
      ensures AccountLives(s, n, BindingOwner(b))
    {
      BindingOwnerIsOld(s, b);
    }
    NoAccountRevivedKeepsHeld(s, s', n);
  }

  lemma SyncBindingEffect(s: State, rcl: Instance, sa: ServiceAccount, role: BindingRole, cached: RoleBinding)
    requires Enabled(s, SyncBinding(rcl, sa, role, cached))
    requires Apply(s, SyncBinding(rcl, sa, role, cached)).bindings != s.bindings
    ensures var n := DesiredBinding(rcl, sa, role).meta.name;
            var s' := Apply(s, SyncBinding(rcl, sa, role, cached));
            n in s.bindings && n in s'.bindings && s'.bindings[n].meta.owners == [AccountRef(sa)]
  {
  }

  /** A committed sync leaves a binding with its owner exactly when the account
      that the sync went by has the owner's UID; it is the server's version
      check alone that decides whether it commits. */
  lemma BindingCommitKeepsOwnerExactlyWhen(s: State, e: Event)
    requires e.SyncBinding? && Inv(s) && Enabled(s, e) && Apply(s, e).bindings != s.bindings
    ensures var n := DesiredBinding(e.rcl, e.sa, e.role).meta.name;
            n in s.bindings && (BindingKept(Apply(s, e), s.bindings[n]) <==> e.sa.meta.uid == BindingOwner(s.bindings[n]))
  {
    SyncBindingEffect(s, e.rcl, e.sa, e.role, e.cachedBinding);
    var n := DesiredBinding(e.rcl, e.sa, e.role).meta.name;
    assert s.bindings[n].meta.name == n;
  }

  ghost predicate BindsCurrentAccountThroughout(s: State, events: seq<Event>, n: string)
    requires IsRun(s, events)
    decreases |events|
  {
    events == []
    || (BindsCurrentAccount(s, events[0], n) && BindsCurrentAccountThroughout(Apply(s, events[0]), events[1..], n))
  }

  lemma {:induction false} RunKeepsBindingsHeld(s: State, events: seq<Event>, n: string)
    requires Inv(s) && BindingsHeld(s, n) && IsRun(s, events) && BindsCurrentAccountThroughout(s, events, n)
    ensures Inv(After(s, events)) && BindingsHeld(After(s, events), n)
    decreases |events|
  {
    if events != [] {
      StepKeepsInv(s, events[0]);
      StepKeepsBindingsHeld(s, events[0], n);
      RunKeepsBindingsHeld(Apply(s, events[0]), events[1..], n);
    }
  }

  /** Bindings are never collected too early: after any run in which the syncs
      of an account's bindings go by the account that is stored when they
      commit, every binding that the stored account ever owned is stored, still
      owned by it, and cannot be collected. Instance lists do not matter here,
      nor do the bindings of other accounts. */
  lemma BindingsAreNeverCollectedTooEarly(events: seq<Event>, s: State, b: RoleBinding)
    requires IsRun(INITIAL, events) && s == After(INITIAL, events)
    requires BindsCurrentAccountThroughout(INITIAL, events, b.subject)
    requires b in s.bindingsSeen && AccountLives(s, b.subject, BindingOwner(b))
    ensures BindingKept(s, b) && !Collectible(s, s.bindings[b.meta.name].meta.owners)
  {
    RunKeepsBindingsHeld(INITIAL, events, b.subject);
    HeldBindingIsNotCollectible(s, b);
  }

  // ------------------------------------------------------------------ adapters

  function AdapterOwner(d: Adapter): nat
  {
    if d.meta.owners == [] then 0 else d.meta.owners[0].uid
  }

  function KeyOfAdapter(d: Adapter): AdapterKey
  {
    AdapterKey(d.backend, d.meta.name)
  }

  ghost predicate OwnerLives(s: State, uid: nat)
  {
    || (exists n :: n in s.accounts && s.accounts[n].meta.uid == uid)
    || (exists k :: k in s.instances && s.instances[k].uid == uid)
  }

  ghost predicate AdapterKept(s: State, d: Adapter)
  {
    KeyOfAdapter(d) in s.adapters && AdapterOwner(s.adapters[KeyOfAdapter(d)]) == AdapterOwner(d)
  }

  /** An adapter whose controller lives is stored and still controlled by it. */
  ghost predicate AdaptersHeld(s: State)
  {
    forall d :: d in s.adaptersSeen && OwnerLives(s, AdapterOwner(d)) ==> AdapterKept(s, d)
  }

  lemma AdapterOwnerIsOld(s: State, d: Adapter)
    requires Inv(s) && d in s.adaptersSeen
    ensures 0 < AdapterOwner(d) < s.clock && |d.meta.owners| == 1
    ensures ControllerOf(d.meta.owners) == Some(d.meta.owners[0])
  {
    assert AdapterShape(s, d);
  }

  lemma AdapterPutKeepsHeld(s: State, d: Adapter)
    requires Inv(s) && AdaptersHeld(s)
    requires KeyOfAdapter(d) in s.adapters ==> AdapterOwner(s.adapters[KeyOfAdapter(d)]) == AdapterOwner(d)
    ensures AdaptersHeld(PutAdapter(s, d))
  {
    var s' := PutAdapter(s, d);
    forall x | x in s'.adaptersSeen && OwnerLives(s', AdapterOwner(x))
      ensures AdapterKept(s', x)
    {
      if x in s.adaptersSeen {
        assert OwnerLives(s, AdapterOwner(x));
        assert AdapterKept(s, x);
      }
    }
  }

  /** findAdapter matches on the controller's UID, so an accepted update never
      moves an adapter to another controller. */
  lemma SyncAdapterKeepsHeld(s: State, e: Event)
    requires e.SyncAdapter? && Inv(s) && AdaptersHeld(s) && Enabled(s, e)
    ensures AdaptersHeld(Apply(s, e))
  {
    var named := e.desired.(meta := e.desired.meta.(name := e.cachedAdapter.meta.name));
    var update := AdapterUpdate(e.desired, e.cachedAdapter);
    if !AdapterEqual(named, e.cachedAdapter) && AcceptsAdapter(s, update) {
      var k := AdapterKey(update.backend, update.meta.name);
      assert s.adapters[k] in s.adaptersSeen;
      assert s.adapters[k] == e.cachedAdapter;
      AdapterOwnerIsOld(s, e.cachedAdapter);
      var stored := Fill(update, e.defaults);
      AdapterPutKeepsHeld(s, stored.(meta := Stamp(stored.meta, s.adapters[k].meta.uid, s.clock)));
    }
  }

  lemma KeptAdapterIsNotCollectible(s: State, d: Adapter)
    requires AdapterKept(s, d) && s.adapters[KeyOfAdapter(d)].meta.owners != [] && OwnerLives(s, AdapterOwner(d))
    ensures !Collectible(s, s.adapters[KeyOfAdapter(d)].meta.owners)
  {
    var stored := s.adapters[KeyOfAdapter(d)];
    assert stored.meta.owners[0] in stored.meta.owners;
    assert UidIsLive(s, stored.meta.owners[0].uid);
  }

  lemma HeldAdapterIsNotCollectible(s: State, d: Adapter)
    requires Inv(s) && AdaptersHeld(s) && d in s.adaptersSeen && OwnerLives(s, AdapterOwner(d))
    ensures AdapterKept(s, d) && !Collectible(s, s.adapters[KeyOfAdapter(d)].meta.owners)
  {
    assert AdapterKept(s, d);
    AdapterOwnerIsOld(s, s.adapters[KeyOfAdapter(d)]);
    KeptAdapterIsNotCollectible(s, d);
  }

  lemma CollectAdapterKeepsHeld(s: State, k: AdapterKey)
    requires Inv(s) && AdaptersHeld(s) && k in s.adapters && Collectible(s, s.adapters[k].meta.owners)
    ensures AdaptersHeld(s.(adapters := s.adapters - {k}))
  {
    var s' := s.(adapters := s.adapters - {k});
    forall d | d in s.adaptersSeen && OwnerLives(s', AdapterOwner(d))
      ensures AdapterKept(s', d)
    {
      assert OwnerLives(s, AdapterOwner(d));
      HeldAdapterIsNotCollectible(s, d);
    }
  }

  /** What a step can do to the instances, as for accounts. */
  ghost predicate InstanceUidsAreOldOrFresh(s: State, s': State)
  {
    forall k :: k in s'.instances ==>
                  (k in s.instances && s.instances[k].uid == s'.instances[k].uid) || s'.instances[k].uid == s.clock
  }

  lemma StepInstanceUids(s: State, e: Event)
    requires Enabled(s, e)
    ensures InstanceUidsAreOldOrFresh(s, Apply(s, e))
  {
  }

  lemma OwnerWasAlive(s: State, s': State, uid: nat)
    requires AccountUidsAreOldOrFresh(s, s') && InstanceUidsAreOldOrFresh(s, s') && uid < s.clock
    requires OwnerLives(s', uid)
    ensures OwnerLives(s, uid)
  {
  }

  lemma OtherStepKeepsAdaptersHeld(s: State, e: Event)
    requires Inv(s) && AdaptersHeld(s) && Enabled(s, e) && !TouchesAdapters(e)
    ensures AdaptersHeld(Apply(s, e))
  {
    var s' := Apply(s, e);
    StepAccountUids(s, e);
    StepInstanceUids(s, e);
    StepLeavesDependents(s, e);
    forall d | d in s'.adaptersSeen && OwnerLives(s', AdapterOwner(d))
      ensures AdapterKept(s', d)
    {
      AdapterOwnerIsOld(s, d);
      OwnerWasAlive(s, s', AdapterOwner(d));
      assert AdapterKept(s, d);
    }
  }

  lemma CreateAdapterKeepsHeld(s: State, e: Event)
    requires e.CreateAdapter? && Inv(s) && AdaptersHeld(s) && Enabled(s, e)
    ensures AdaptersHeld(Apply(s, e))
  {
    var stored := Fill(e.desired, e.defaults);
    AdapterPutKeepsHeld(s, stored.(meta := Stamp(stored.meta, s.clock, s.clock)));
  }

  lemma StepKeepsAdaptersHeld(s: State, e: Event)
    requires Inv(s) && AdaptersHeld(s) && Enabled(s, e)
    ensures AdaptersHeld(Apply(s, e))
  {
    if e.CreateAdapter? {
      CreateAdapterKeepsHeld(s, e);
    } else if e.SyncAdapter? {
      SyncAdapterKeepsHeld(s, e);
    } else if e.CollectAdapter? {
      CollectAdapterKeepsHeld(s, e.adapterKey);
    } else {
      OtherStepKeepsAdaptersHeld(s, e);
    }
  }

  // ------------------------------------------------------- reconciled instances

  ghost predicate Lives(s: State, rcl: Instance)
  {
    InstanceKey(rcl) in s.instances && s.instances[InstanceKey(rcl)].uid == rcl.uid
  }

  /** A managed account of the name `n` that a reconcile went on with holds its
      instance. */
  ghost predicate ReturnedHold(s: State, n: string)
  {
    forall rcl, sa :: (rcl, sa) in s.returned && sa.meta.name == n && Managed(sa) && Lives(s, rcl) ==>
                        Holds(sa, InstanceKey(rcl), rcl.uid)
  }

  lemma InstanceWasAlive(s: State, s': State, rcl: Instance)
    requires Inv(s) && InstanceUidsAreOldOrFresh(s, s') && rcl in s.instancesSeen && Lives(s', rcl)
    ensures Lives(s, rcl)
  {
  }

  lemma MoreReturnedHold(s: State, s': State, rcl: Instance, sa: ServiceAccount, n: string)
    requires Inv(s) && ReturnedHold(s, n) && InstanceUidsAreOldOrFresh(s, s')
    requires s'.returned <= s.returned + {(rcl, sa)}
    requires sa.meta.name == n && Managed(sa) && Lives(s', rcl) ==> Holds(sa, InstanceKey(rcl), rcl.uid)
    ensures ReturnedHold(s', n)
  {
    forall x, a | (x, a) in s'.returned && a.meta.name == n && Managed(a) && Lives(s', x)
      ensures Holds(a, InstanceKey(x), x.uid)
    {
      if (x, a) in s.returned {
        assert ReturnedOk(s, x, a);
        InstanceWasAlive(s, s', x);
      }
    }
  }

  /** A current list has the reconciled instance under its own UID. */
  lemma DesiredHoldsReconciled(s: State, rcl: Instance, owners: seq<Instance>)
    requires DistinctNames(owners) && ListIsCurrent(s, rcl, owners) && Lives(s, rcl)
    ensures exists i :: i in owners && InstanceKey(i) == InstanceKey(rcl) && i.uid == rcl.uid
                        && InstanceRef(i, false) in OwnerRefs(owners)
                        && InstanceKey(rcl) in ByKey(OwnerRefs(owners))
                        && ByKey(OwnerRefs(owners))[InstanceKey(rcl)] == InstanceRef(i, false)
  {
    var i :| i in owners && InstanceKey(i) == InstanceKey(rcl);
    ListedOwnerWins(owners, i);
    ByKeyHolds(OwnerRefs(owners), InstanceKey(rcl));
  }

  lemma OwnersAreDistinct(rcl: Instance, listed: seq<Instance>)
    requires DistinctNames(listed)
    ensures DistinctNames(AccountOwners(rcl, listed))
  {
    SortByNameDistinct(listed);
  }

  lemma CreatedHoldsReconciled(s: State, e: Event, n: string)
    requires e.CreateAccount? && Inv(s) && ReturnedHold(s, n) && Enabled(s, e) && Current(s, e, n)
    ensures ReturnedHold(Apply(s, e), n)
  {
    var owners := AccountOwners(e.rcl, e.listed);
    var d := DesiredAccount(e.rcl, owners);
    var sa := d.(meta := Stamp(d.meta, s.clock, s.clock));
    DesiredAccountShape(e.rcl, owners);
    OwnersAreDistinct(e.rcl, e.listed);
    if d.meta.name == n && Lives(s, e.rcl) {
      assert Apply(s, e).clock != s.clock;
      DesiredHoldsReconciled(s, e.rcl, owners);
    }
    StepInstanceUids(s, e);
    MoreReturnedHold(s, Apply(s, e), e.rcl, sa, n);
  }

  lemma KeptHoldsReconciled(s: State, rcl: Instance, listed: seq<Instance>, cached: ServiceAccount, merged: seq<OwnerReference>)
    requires Inv(s) && rcl in s.instancesSeen && CanList(s, rcl, listed) && cached in s.accountsSeen
    requires ListIsCurrent(s, rcl, AccountOwners(rcl, listed)) && Lives(s, rcl) && Managed(cached)
    requires PlanSync(DesiredAccount(rcl, AccountOwners(rcl, listed)), cached, merged).Keep?
    ensures Holds(cached, InstanceKey(rcl), rcl.uid)
  {
    var owners := AccountOwners(rcl, listed);
    var d := DesiredAccount(rcl, owners);
    DesiredAccountShape(rcl, owners);
    OwnersAreDistinct(rcl, listed);
    DesiredHoldsReconciled(s, rcl, owners);
    var i :| i in owners && InstanceKey(i) == InstanceKey(rcl) && i.uid == rcl.uid
             && InstanceRef(i, false) in OwnerRefs(owners);
    DesiredOwnersOk(s, rcl, listed);
    EqualAccountsShareOwners(d, cached, InstanceRef(i, false));
    assert AccountShape(s, cached);
    DistinctKeysAreKept(cached.meta.owners);
  }

  lemma UpdatedHoldsReconciled(s: State, rcl: Instance, listed: seq<Instance>, cached: ServiceAccount, merged: seq<OwnerReference>)
    requires DistinctNames(listed) && ListIsCurrent(s, rcl, AccountOwners(rcl, listed)) && Lives(s, rcl)
    requires Lists(merged, Merged(cached.meta.owners, OwnerRefs(AccountOwners(rcl, listed))))
    ensures InstanceKey(rcl) in ByKey(merged) && ByKey(merged)[InstanceKey(rcl)].uid == rcl.uid
  {
    var owners := AccountOwners(rcl, listed);
    OwnersAreDistinct(rcl, listed);
    DesiredHoldsReconciled(s, rcl, owners);
    MergeRefinesOverride(cached.meta.owners, OwnerRefs(owners), merged);
  }

  lemma SyncedHoldsReconciled(s: State, e: Event, n: string)
    requires e.SyncAccount? && Inv(s) && ReturnedHold(s, n) && Enabled(s, e) && Current(s, e, n)
    ensures ReturnedHold(Apply(s, e), n)
  {
    var owners := AccountOwners(e.rcl, e.listed);
    var d := DesiredAccount(e.rcl, owners);
    DesiredAccountShape(e.rcl, owners);
    StepInstanceUids(s, e);
    var plan := PlanSync(d, e.cachedAccount, e.merged);
    if Apply(s, e) == s {
      return;
    }
    if plan.Keep? {
      if d.meta.name == n && Lives(s, e.rcl) && Managed(e.cachedAccount) {
        KeptHoldsReconciled(s, e.rcl, e.listed, e.cachedAccount, e.merged);
      }
      MoreReturnedHold(s, Apply(s, e), e.rcl, e.cachedAccount, n);
    } else if AcceptsAccount(s, plan.account) {
      PlannedUpdate(e.rcl, owners, e.cachedAccount, e.merged);
      if d.meta.name == n && Lives(s, e.rcl) {
        UpdatedHoldsReconciled(s, e.rcl, e.listed, e.cachedAccount, e.merged);
      }
      MoreReturnedHold(s, Apply(s, e), e.rcl, UpdatedAccount(s, plan.account), n);
    }
  }

  lemma StepLeavesReturned(s: State, e: Event)
    requires Enabled(s, e) && !e.CreateAccount? && !e.SyncAccount?
    ensures Apply(s, e).returned == s.returned
  {
  }

  lemma StepKeepsReturnedHold(s: State, e: Event, n: string)
    requires Inv(s) && ReturnedHold(s, n) && Enabled(s, e) && Current(s, e, n)
    ensures ReturnedHold(Apply(s, e), n)
  {
    if e.CreateAccount? {
      CreatedHoldsReconciled(s, e, n);
    } else if e.SyncAccount? {
      SyncedHoldsReconciled(s, e, n);
    } else {
      StepLeavesReturned(s, e);
      StepInstanceUids(s, e);
      OldReturnedHold(s, Apply(s, e), n);
    }
  }

  lemma OldReturnedHold(s: State, s': State, n: string)
    requires Inv(s) && ReturnedHold(s, n) && InstanceUidsAreOldOrFresh(s, s') && s'.returned == s.returned
    ensures ReturnedHold(s', n)
  {
    forall x, a | (x, a) in s'.returned && a.meta.name == n && Managed(a) && Lives(s', x)
      ensures Holds(a, InstanceKey(x), x.uid)
    {
      assert ReturnedOk(s, x, a);
      InstanceWasAlive(s, s', x);
    }
  }

  // ---------------------------------------------------------------- the theorem

  ghost predicate Secure(s: State, n: string)
  {
    Inv(s) && HeldForever(s, n) && AdaptersHeld(s) && ReturnedHold(s, n)
  }

  lemma StepKeepsSecure(s: State, e: Event, n: string)
    requires Secure(s, n) && Enabled(s, e) && Current(s, e, n)
    ensures Secure(Apply(s, e), n)
  {
    StepKeepsInv(s, e);
    StepKeepsHeld(s, e, n);
    StepKeepsAdaptersHeld(s, e);
    StepKeepsReturnedHold(s, e, n);
  }

  lemma {:induction false} CurrentRunKeepsSecure(s: State, events: seq<Event>, n: string)
    requires Secure(s, n) && IsRun(s, events) && IsCurrentRun(s, events, n)
    ensures Secure(After(s, events), n)
    decreases |events|
  {
    if events != [] {
      StepKeepsSecure(s, events[0], n);
      CurrentRunKeepsSecure(Apply(s, events[0]), events[1..], n);
    }
  }

  lemma ReachableIsSecure(events: seq<Event>, n: string)
    requires IsRun(INITIAL, events) && IsCurrentRun(INITIAL, events, n)
    ensures Secure(After(INITIAL, events), n)
  {
    CurrentRunKeepsSecure(INITIAL, events, n);
  }

  lemma SecureAccount(s: State, rcl: Instance, sa: ServiceAccount)
    requires Secure(s, sa.meta.name) && (rcl, sa) in s.returned && Managed(sa) && Lives(s, rcl)
    ensures AccountLives(s, sa.meta.name, sa.meta.uid)
    ensures Managed(s.accounts[sa.meta.name]) && Holds(s.accounts[sa.meta.name], InstanceKey(rcl), rcl.uid)
    ensures !Collectible(s, s.accounts[sa.meta.name].meta.owners)
  {
    assert ReturnedOk(s, rcl, sa);
    assert StillHeld(s, sa, InstanceKey(rcl));
    HeldIsNotCollectible(s, s.accounts[sa.meta.name], InstanceKey(rcl));
  }

  lemma SecureAdapters(s: State, rcl: Instance, sa: ServiceAccount)
    requires Inv(s) && AdaptersHeld(s) && AccountLives(s, sa.meta.name, sa.meta.uid) && Lives(s, rcl)
    ensures forall d :: d in s.adaptersSeen && (AdapterOwner(d) == sa.meta.uid || AdapterOwner(d) == rcl.uid) ==>
                          AdapterKept(s, d) && !Collectible(s, s.adapters[KeyOfAdapter(d)].meta.owners)
  {
    forall d | d in s.adaptersSeen && (AdapterOwner(d) == sa.meta.uid || AdapterOwner(d) == rcl.uid)
      ensures AdapterKept(s, d) && !Collectible(s, s.adapters[KeyOfAdapter(d)].meta.owners)
    {
      HeldAdapterIsNotCollectible(s, d);
    }
  }

  /** Never collected too early: after any run in which the instance lists are
      current when the account is reconciled from them, a live instance that was
      reconciled with a managed account is an owner of the stored account by key
      and UID, and neither the account nor the adapters that it or the instance
      controls can be collected. Nothing is asked of the lists of other accounts. */
  lemma NeverCollectedTooEarly(events: seq<Event>, s: State, rcl: Instance, sa: ServiceAccount)
    requires IsRun(INITIAL, events) && IsCurrentRun(INITIAL, events, sa.meta.name) && s == After(INITIAL, events)
    requires (rcl, sa) in s.returned && Managed(sa) && Lives(s, rcl)
    ensures AccountLives(s, sa.meta.name, sa.meta.uid)
    ensures Managed(s.accounts[sa.meta.name]) && Holds(s.accounts[sa.meta.name], InstanceKey(rcl), rcl.uid)
    ensures !Collectible(s, s.accounts[sa.meta.name].meta.owners)
    ensures forall d :: d in s.adaptersSeen && (AdapterOwner(d) == sa.meta.uid || AdapterOwner(d) == rcl.uid) ==>
                          AdapterKept(s, d) && !Collectible(s, s.adapters[KeyOfAdapter(d)].meta.owners)
  {
    ReachableIsSecure(events, sa.meta.name);
    SecureAccount(s, rcl, sa);
    SecureAdapters(s, rcl, sa);
  }

  /** The same for the bindings of that account, when their syncs go by the
      account that is stored when they commit. */
  lemma BindingsOfReconciledInstanceAreKept(events: seq<Event>, s: State, rcl: Instance, sa: ServiceAccount,
                                            b: RoleBinding)
    requires IsRun(INITIAL, events) && IsCurrentRun(INITIAL, events, sa.meta.name) && s == After(INITIAL, events)
    requires BindsCurrentAccountThroughout(INITIAL, events, sa.meta.name)
    requires (rcl, sa) in s.returned && Managed(sa) && Lives(s, rcl)
    requires b in s.bindingsSeen && b.subject == sa.meta.name && BindingOwner(b) == sa.meta.uid
    ensures BindingKept(s, b) && !Collectible(s, s.bindings[b.meta.name].meta.owners)
  {
    NeverCollectedTooEarly(events, s, rcl, sa);
    BindingsAreNeverCollectedTooEarly(events, s, b);
  }
}
