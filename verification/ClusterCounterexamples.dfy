/** Runs on which the promises about collection fail, each leaving out one of
    the conditions under which they are proved. */
module ClusterCounterexamples {
  import opened Wrappers
  import opened Objects
  import opened Owners
  import opened Components
  import opened Semantic
  import opened Cluster
  import opened ClusterInvariant
  import opened ClusterSafety
  import opened ClusterDependents
  import opened ClusterCollection
  import Reconciler

  function PlainInstance(name: string, uid: nat): Instance
  {
    Instance("v1", "Source", name, uid, map[], false, NoAuth, None)
  }

  const FIRST_A := PlainInstance("a", 1)
  const B := PlainInstance("b", 2)
  const SECOND_A := PlainInstance("a", 3)

  lemma Extend(s: State, events: seq<Event>, e: Event)
    requires IsRun(s, events) && Enabled(After(s, events), e)
    ensures IsRun(s, events + [e]) && After(s, events + [e]) == Apply(After(s, events), e)
  {
    RunOfOne(After(s, events), e);
    RunsCompose(s, events, [e]);
  }

  // ---------------------------------------------------------------- stale lists

  ghost predicate Recreated(s: State)
  {
    && s.clock == 4 && s.instances == map[InstanceKey(SECOND_A) := SECOND_A, InstanceKey(B) := B]
    && s.accounts == map[] && s.bindings == map[] && s.adapters == map[]
    && s.instancesSeen == {FIRST_A, B, SECOND_A} && s.accountsSeen == {}
  }

  /** "a" and "b" are created, and "a" is re-created. */
  lemma RecreateRun() returns (events: seq<Event>)
    ensures IsRun(INITIAL, events) && Recreated(After(INITIAL, events))
  {
    events := [];
    Extend(INITIAL, events, CreateInstance(FIRST_A));
    events := events + [CreateInstance(FIRST_A)];
    Extend(INITIAL, events, CreateInstance(B));
    events := events + [CreateInstance(B)];
    Extend(INITIAL, events, DeleteInstance(InstanceKey(FIRST_A)));
    events := events + [DeleteInstance(InstanceKey(FIRST_A))];
    Extend(INITIAL, events, CreateInstance(SECOND_A));
    events := events + [CreateInstance(SECOND_A)];
  }

  function SharedAccount(): ServiceAccount
  {
    var d := DesiredAccount(SECOND_A, [SECOND_A, B]);
    d.(meta := Stamp(d.meta, 4, 4))
  }

  lemma SortsTwo(x: Instance, y: Instance)
    requires Sorting.Less(x.name, y.name)
    ensures SortByName([x, y]) == [x, y]
  {
    Sorting.LessIsTotal(x.name, y.name);
    assert [x, y][1..] == [y];
    assert SortByName([y]) == [y];
  }

  lemma CanListTwo(s: State, x: Instance)
    requires s.instancesSeen == {FIRST_A, B, SECOND_A}
    requires x == FIRST_A || x == SECOND_A
    ensures CanList(s, SECOND_A, [x, B]) && CanList(s, B, [x, B])
    ensures AccountOwners(SECOND_A, [x, B]) == [x, B] && AccountOwners(B, [x, B]) == [x, B]
  {
    SortsTwo(x, B);
    assert [x, B][0] == x && [x, B][1] == B;
  }

  ghost predicate Reconciled(s: State)
  {
    && s.clock == 5 && s.instances == map[InstanceKey(SECOND_A) := SECOND_A, InstanceKey(B) := B]
    && s.instancesSeen == {FIRST_A, B, SECOND_A} && s.bindings == map[] && s.adapters == map[]
    && s.accounts == map[SharedAccount().meta.name := SharedAccount()]
    && s.accountsSeen == {SharedAccount()} && (SECOND_A, SharedAccount()) in s.returned
  }

  /** The second "a" is reconciled with a current list. */
  lemma ReconcileSecondA(s: State)
    requires Recreated(s)
    ensures Enabled(s, CreateAccount(SECOND_A, [SECOND_A, B]))
    ensures Reconciled(Apply(s, CreateAccount(SECOND_A, [SECOND_A, B])))
  {
    CanListTwo(s, SECOND_A);
  }

  lemma ReconciledRun() returns (events: seq<Event>)
    ensures IsRun(INITIAL, events) && Reconciled(After(INITIAL, events))
  {
    events := RecreateRun();
    ReconcileSecondA(After(INITIAL, events));
    Extend(INITIAL, events, CreateAccount(SECOND_A, [SECOND_A, B]));
    events := events + [CreateAccount(SECOND_A, [SECOND_A, B])];
  }

  lemma DistinctListsItself(refs: seq<OwnerReference>)
    requires DistinctKeys(refs)
    ensures Lists(refs, ByKey(refs))
  {
    DistinctKeysAreKept(refs);
    forall k | k in ByKey(refs)
      ensures ByKey(refs)[k] in refs
    {
      ByKeyHolds(refs, k);
    }
  }

  lemma SameKeyIsDesired(current: seq<OwnerReference>, desired: seq<OwnerReference>, k: ObjectKey)
    requires |current| <= |desired| && k in ByKey(current)
    requires forall i :: 0 <= i < |current| ==> OwnerKey(current[i]) == OwnerKey(desired[i])
    ensures k in ByKey(desired)
  {
    ByKeyHolds(current, k);
    ByKeyHolds(desired, k);
    var i :| 0 <= i < |current| && current[i] == ByKey(current)[k];
    assert desired[i] in desired;
  }

  lemma OverriddenMap(m: OwnerMap, d: OwnerMap)
    requires m.Keys <= d.Keys
    ensures m + d == d
  {
  }

  /** Merging over references of the same keys gives the desired ones. */
  lemma MergeOfSameKeys(current: seq<OwnerReference>, desired: seq<OwnerReference>)
    requires |current| <= |desired| && DistinctKeys(desired)
    requires forall i :: 0 <= i < |current| ==> OwnerKey(current[i]) == OwnerKey(desired[i])
    ensures Lists(desired, Merged(current, desired))
  {
    forall k | k in ByKey(current)
      ensures k in ByKey(desired)
    {
      SameKeyIsDesired(current, desired, k);
    }
    OverriddenMap(ByKey(current), ByKey(desired));
    DistinctListsItself(desired);
  }

  /** What the slow reconcile of "b" wants, and that it differs. */
  lemma StaleDesired()
    ensures var d := DesiredAccount(B, [FIRST_A, B]);
            && d.meta.name == SharedAccount().meta.name && d.meta.owners == OwnerRefs([FIRST_A, B])
            && !AccountEqual(d, SharedAccount()) && Managed(SharedAccount())
            && Lists(d.meta.owners, Merged(SharedAccount().meta.owners, d.meta.owners))
  {
    DesiredAccountShape(SECOND_A, [SECOND_A, B]);
    DesiredAccountShape(B, [FIRST_A, B]);
    SharedAccountIsTheSameForAll(SECOND_A, SECOND_A, [SECOND_A, B]);
    SharedAccountIsTheSameForAll(B, B, [FIRST_A, B]);
    MergeOfSameKeys(OwnerRefs([SECOND_A, B]), OwnerRefs([FIRST_A, B]));
    assert !OwnerBelow(OwnerRefs([FIRST_A, B])[0], OwnerRefs([SECOND_A, B])[0]);
  }

  ghost predicate PutBack(s: State)
  {
    && s.instances == map[InstanceKey(SECOND_A) := SECOND_A, InstanceKey(B) := B]
    && s.bindings == map[] && s.adapters == map[] && (SECOND_A, SharedAccount()) in s.returned
    && s.accounts.Keys == {SharedAccount().meta.name}
    && s.accounts[SharedAccount().meta.name].meta.owners == OwnerRefs([FIRST_A, B])
    && s.accounts[SharedAccount().meta.name].meta.uid == 4
  }

  const STALE_SYNC := SyncAccount(B, [FIRST_A, B], SharedAccount(), OwnerRefs([FIRST_A, B]))

  /** Its commit puts the old UID back. */
  lemma CommitStaleList(s: State)
    requires Reconciled(s)
    ensures Enabled(s, STALE_SYNC) && PutBack(Apply(s, STALE_SYNC))
  {
    CanListTwo(s, FIRST_A);
    StaleDesired();
    DesiredAccountShape(B, [FIRST_A, B]);
  }

  lemma PutBackRun() returns (events: seq<Event>)
    ensures IsRun(INITIAL, events) && PutBack(After(INITIAL, events))
  {
    events := ReconciledRun();
    CommitStaleList(After(INITIAL, events));
    Extend(INITIAL, events, STALE_SYNC);
    events := events + [STALE_SYNC];
  }

  lemma DeleteBLeavesAccountCollectible(s: State, t: State)
    requires PutBack(s)
    requires t == s.(instances := s.instances - {InstanceKey(B)})
    ensures Enabled(t, CollectAccount(SharedAccount().meta.name)) && Lives(t, SECOND_A)
  {
    var refs := OwnerRefs([FIRST_A, B]);
    assert refs == [refs[0], refs[1]];
    assert t.instances == map[InstanceKey(SECOND_A) := SECOND_A];
    assert !UidIsLive(t, 1) && !UidIsLive(t, 2);
  }

  /** A slow reconcile of "b" still lists the first "a". Its commit puts the
      old UID back, although the second "a" lives and was reconciled, and once
      "b" is deleted the account of "a" can be collected. */
  lemma StaleListLosesLiveInstance()
    ensures exists events, rcl: Instance, sa: ServiceAccount ::
              && IsRun(INITIAL, events)
              && (rcl, sa) in After(INITIAL, events).returned && Managed(sa) && Lives(After(INITIAL, events), rcl)
              && Enabled(After(INITIAL, events), CollectAccount(sa.meta.name))
  {
    var events := PutBackRun();
    var s := After(INITIAL, events);
    var e := DeleteInstance(InstanceKey(B));
    Extend(INITIAL, events, e);
    DeleteBLeavesAccountCollectible(s, Apply(s, e));
    StaleDesired();
    assert (SECOND_A, SharedAccount()) in After(INITIAL, events + [e]).returned;
  }

  // ------------------------------------------------------------- slow bindings

  const LATE_B := PlainInstance("b", 3)

  function AccountFor(i: Instance, uid: nat): ServiceAccount
  {
    var d := DesiredAccount(i, [i]);
    d.(meta := Stamp(d.meta, uid, uid))
  }

  function SharedName(): string
  {
    DesiredAccount(FIRST_A, [FIRST_A]).meta.name
  }

  lemma AccountsForOne(i: Instance, uid: nat)
    requires i == FIRST_A || i == LATE_B
    ensures var a := AccountFor(i, uid);
            && a.meta.name == SharedName() && a.meta.owners == [InstanceRef(i, false)] && Managed(a)
            && a.meta.uid == uid && a.meta.version == uid
    ensures AccountOwners(i, [i]) == [i]
  {
    SharedAccountIsTheSameForAll(i, FIRST_A, [i]);
    AccountNameIgnoresOwners(FIRST_A, [i], [FIRST_A]);
    DesiredAccountShape(i, [i]);
    assert OwnerRefs([i]) == [InstanceRef(i, false)];
    SortsOne(i);
  }

  lemma SortsOne(i: Instance)
    ensures SortByName([i]) == [i]
  {
    assert [i][1..] == [] && SortByName([]) == [];
    assert InsertByName(i, []) == [i];
  }

  /** A run in which every list that an account is reconciled from is current. */
  ghost predicate CurrentRun(events: seq<Event>)
  {
    IsRun(INITIAL, events) && forall n :: IsCurrentRun(INITIAL, events, n)
  }

  lemma {:induction false} CurrentRunsCompose(s: State, events: seq<Event>, e: Event, n: string)
    requires IsRun(s, events) && IsCurrentRun(s, events, n)
    requires Enabled(After(s, events), e) && Current(After(s, events), e, n)
    ensures IsRun(s, events + [e]) && IsCurrentRun(s, events + [e], n)
    decreases |events|
  {
    Extend(s, events, e);
    if events == [] {
      assert [] + [e] == [e] && [e][1..] == [];
    } else {
      CurrentRunsCompose(Apply(s, events[0]), events[1..], e, n);
      assert (events + [e])[0] == events[0] && (events + [e])[1..] == events[1..] + [e];
    }
  }

  lemma ExtendCurrent(events: seq<Event>, e: Event)
    requires CurrentRun(events) && Enabled(After(INITIAL, events), e)
    requires (e.CreateAccount? || e.SyncAccount?) ==>
               ListIsCurrent(After(INITIAL, events), e.rcl, AccountOwners(e.rcl, e.listed))
    ensures CurrentRun(events + [e]) && After(INITIAL, events + [e]) == Apply(After(INITIAL, events), e)
  {
    Extend(INITIAL, events, e);
    forall n
      ensures IsCurrentRun(INITIAL, events + [e], n)
    {
      CurrentRunsCompose(INITIAL, events, e, n);
    }
  }

  ghost predicate ReconciledA(s: State)
  {
    && s.clock == 3 && s.instances == map[InstanceKey(FIRST_A) := FIRST_A] && s.instancesSeen == {FIRST_A}
    && s.accounts == map[SharedName() := AccountFor(FIRST_A, 2)] && s.bindings == map[] && s.adapters == map[]
    && (FIRST_A, AccountFor(FIRST_A, 2)) in s.returned
  }

  lemma ReconcileARun() returns (events: seq<Event>)
    ensures CurrentRun(events) && ReconciledA(After(INITIAL, events))
  {
    AccountsForOne(FIRST_A, 2);
    events := [];
    ExtendCurrent(events, CreateInstance(FIRST_A));
    events := events + [CreateInstance(FIRST_A)];
    var s := After(INITIAL, events);
    assert FIRST_A in [FIRST_A];
    ExtendCurrent(events, CreateAccount(FIRST_A, [FIRST_A]));
    events := events + [CreateAccount(FIRST_A, [FIRST_A])];
  }

  ghost predicate ReplacedByB(s: State)
  {
    && s.clock == 4 && s.instances == map[InstanceKey(LATE_B) := LATE_B] && s.instancesSeen == {FIRST_A, LATE_B}
    && s.accounts == map[] && s.bindings == map[] && s.adapters == map[]
    && (FIRST_A, AccountFor(FIRST_A, 2)) in s.returned
  }

  /** "a" is deleted and its account collected; then "b" is created. */
  lemma ReplaceByBRun() returns (events: seq<Event>)
    ensures CurrentRun(events) && ReplacedByB(After(INITIAL, events))
  {
    events := ReconcileARun();
    AccountsForOne(FIRST_A, 2);
    ExtendCurrent(events, DeleteInstance(InstanceKey(FIRST_A)));
    events := events + [DeleteInstance(InstanceKey(FIRST_A))];
    var s := After(INITIAL, events);
    assert s.instances == map[] && !UidIsLive(s, 1);
    ExtendCurrent(events, CollectAccount(SharedName()));
    events := events + [CollectAccount(SharedName())];
    assert After(INITIAL, events).accounts == map[];
    ExtendCurrent(events, CreateInstance(LATE_B));
    events := events + [CreateInstance(LATE_B)];
  }

  function BindingFor(i: Instance, account: ServiceAccount, uid: nat, version: nat): RoleBinding
  {
    var d := DesiredBinding(i, account, ConfigWatcher);
    d.(meta := Stamp(d.meta, uid, version))
  }

  ghost predicate BoundB(s: State)
  {
    var b := BindingFor(LATE_B, AccountFor(LATE_B, 4), 5, 5);
    && s.clock == 6 && s.instances == map[InstanceKey(LATE_B) := LATE_B]
    && s.accounts == map[SharedName() := AccountFor(LATE_B, 4)] && s.bindings == map[b.meta.name := b]
    && s.adapters == map[] && b in s.bindingsSeen
    && (FIRST_A, AccountFor(FIRST_A, 2)) in s.returned && (LATE_B, AccountFor(LATE_B, 4)) in s.returned
  }

  lemma BindBRun() returns (events: seq<Event>)
    ensures CurrentRun(events) && BoundB(After(INITIAL, events))
  {
    events := ReplaceByBRun();
    AccountsForOne(LATE_B, 4);
    assert LATE_B in [LATE_B];
    ExtendCurrent(events, CreateAccount(LATE_B, [LATE_B]));
    events := events + [CreateAccount(LATE_B, [LATE_B])];
    ExtendCurrent(events, CreateBinding(LATE_B, AccountFor(LATE_B, 4), ConfigWatcher));
    events := events + [CreateBinding(LATE_B, AccountFor(LATE_B, 4), ConfigWatcher)];
  }

  ghost predicate SyncedForA(s: State)
  {
    var n := BindingFor(LATE_B, AccountFor(LATE_B, 4), 5, 5).meta.name;
    && s.instances == map[InstanceKey(LATE_B) := LATE_B]
    && s.accounts == map[SharedName() := AccountFor(LATE_B, 4)] && s.adapters == map[]
    && s.bindings.Keys == {n} && s.bindings[n].meta.uid == 5 && s.bindings[n].subject == SharedName()
    && s.bindings[n].meta.owners == [AccountRef(AccountFor(FIRST_A, 2))]
    && (LATE_B, AccountFor(LATE_B, 4)) in s.returned
  }

  /** The reconcile of "a" that is still on its way syncs the binding for the
      account that it went on with. */
  lemma SlowSync(s: State) returns (e: Event)
    requires BoundB(s)
    ensures e.SyncBinding? && Enabled(s, e) && SyncedForA(Apply(s, e))
  {
    AccountsForOne(FIRST_A, 2);
    AccountsForOne(LATE_B, 4);
    e := SyncBinding(FIRST_A, AccountFor(FIRST_A, 2), ConfigWatcher, BindingFor(LATE_B, AccountFor(LATE_B, 4), 5, 5));
  }

  /** A live, reconciled instance whose RoleBinding `n` can be collected although
      its account lives. */
  ghost predicate LosesBinding(s: State, rcl: Instance, sa: ServiceAccount, n: string)
  {
    && (rcl, sa) in s.returned && Managed(sa) && Lives(s, rcl) && AccountLives(s, sa.meta.name, sa.meta.uid)
    && n in s.bindings && s.bindings[n].subject == sa.meta.name && Enabled(s, CollectBinding(n))
  }

  lemma SyncedForALoses(s: State)
    requires SyncedForA(s)
    ensures LosesBinding(s, LATE_B, AccountFor(LATE_B, 4), BindingFor(LATE_B, AccountFor(LATE_B, 4), 5, 5).meta.name)
  {
    AccountsForOne(FIRST_A, 2);
    AccountsForOne(LATE_B, 4);
    assert s.accounts[SharedName()].meta.uid == 4;
    assert !UidIsLive(s, 2);
  }

  /** Current instance lists do not protect a RoleBinding. A slow reconcile of a
      deleted instance gives it the dead account that it went on with for an
      owner, and the binding of a live, reconciled instance can be collected. */
  lemma SlowSyncLosesBinding()
    ensures exists events, rcl: Instance, sa: ServiceAccount, n: string ::
              CurrentRun(events) && LosesBinding(After(INITIAL, events), rcl, sa, n)
  {
    var events := BindBRun();
    var e := SlowSync(After(INITIAL, events));
    ExtendCurrent(events, e);
    SyncedForALoses(After(INITIAL, events + [e]));
  }

  // ---------------------------------------------------------- external accounts

  const GCP := Instance("v1", "Source", "g", 1, map[], false, GoogleCloudAuth(None, Some("external")), None)

  const EXTERNAL := ServiceAccount(ObjectMeta("external", 2, 2, map[], map[], []), [], [])

  lemma GcpDesires()
    ensures DesiredAccount(GCP, [GCP]).meta.name == "external"
    ensures DesiredAccount(GCP, [GCP]).meta.owners == OwnerRefs([GCP])
    ensures Lists(OwnerRefs([GCP]), Merged([], OwnerRefs([GCP])))
  {
    DesiredAccountShape(GCP, [GCP]);
    var options := ServiceAccountOptions(GCP);
    assert options == [SetName("external")];
    var base := ServiceAccount(
      ObjectMeta(ServiceAccountName(GCP), 0, 0, CommonLabels(GCP.kind), map[], OwnerRefs([GCP])), [], []);
    assert ApplyAccountOptions(base, [SetName("external")]) == ApplyAccountOption(base, SetName("external")) by {
      assert [SetName("external")][1..] == [];
    }
    var refs := OwnerRefs([GCP]);
    assert refs == [refs[0]];
    MergeOfSameKeys([], refs);
  }

  ghost predicate Adopted(s: State)
  {
    && s.clock == 3 && s.instances == map[InstanceKey(GCP) := GCP] && s.accounts == map["external" := EXTERNAL]
    && s.bindings == map[] && s.adapters == map[] && (GCP, EXTERNAL) in s.returned
  }

  /** A reconcile goes on with an external account without touching it. */
  lemma AdoptRun() returns (events: seq<Event>)
    ensures IsRun(INITIAL, events) && Adopted(After(INITIAL, events))
  {
    events := [];
    Extend(INITIAL, events, CreateInstance(GCP));
    events := events + [CreateInstance(GCP)];
    Extend(INITIAL, events, CreateExternalAccount(EXTERNAL));
    events := events + [CreateExternalAccount(EXTERNAL)];
    GcpDesires();
    var e := SyncAccount(GCP, [], EXTERNAL, OwnerRefs([GCP]));
    Extend(INITIAL, events, e);
    events := events + [e];
  }

  /** The binding that the reconcile makes for an external account outlives
      the instance: with no instance left and nothing to collect, it stays. */
  lemma ExternalAccountLeaksBinding()
    ensures exists events ::
              && IsRun(INITIAL, events) && After(INITIAL, events).instances == map[]
              && Quiescent(After(INITIAL, events)) && After(INITIAL, events).bindings != map[]
  {
    var events := AdoptRun();
    var e := CreateBinding(GCP, EXTERNAL, ConfigWatcher);
    Extend(INITIAL, events, e);
    events := events + [e];
    Extend(INITIAL, events, DeleteInstance(InstanceKey(GCP)));
    events := events + [DeleteInstance(InstanceKey(GCP))];
    var t := After(INITIAL, events);
    var n := BindingName(GCP, "external", ConfigWatcher);
    assert t.bindings.Keys == {n} && t.bindings[n].meta.owners == [AccountRef(EXTERNAL)];
    assert AccountRef(EXTERNAL) in t.bindings[n].meta.owners;
    assert t.accounts["external"].meta.uid == 2;
    assert UidIsLive(t, 2);
  }

  // ------------------------------------------------------------ the nil account

  /** A multi-tenant adapter is handed over to no account, which the source
      dereferences, exactly when the lister has no instance at all. */
  lemma NoAccountExactlyWhenNothingIsListed(events: seq<Event>, rcl: Instance, listed: seq<Instance>)
    requires IsRun(INITIAL, events) && rcl.multiTenant && Reconciler.CanReconcile(After(INITIAL, events), rcl, listed)
    ensures AccountOwners(rcl, listed) == [] <==> listed == []
  {
    ReachableStatesSatisfyInv(events);
    assert CanStore(After(INITIAL, events), rcl);
    SortByNameKeeps(listed);
    assert |multiset(SortByName(listed))| == |SortByName(listed)|;
  }

  const SHARED := PlainInstance("m", 1).(multiTenant := true)

  /** A multi-tenant instance is deleted while its reconcile is on its way: the
      list is current, and empty, and the call of Reconcile meets the nil account. */
  lemma DeletedInstanceMeetsNoAccount()
    ensures exists events, rcl: Instance ::
              && IsRun(INITIAL, events) && After(INITIAL, events).instances == map[] && rcl.multiTenant
              && Reconciler.CanReconcile(After(INITIAL, events), rcl, []) && AccountOwners(rcl, []) == []
  {
    var events := [];
    Extend(INITIAL, events, CreateInstance(SHARED));
    events := events + [CreateInstance(SHARED)];
    Extend(INITIAL, events, DeleteInstance(InstanceKey(SHARED)));
    events := events + [DeleteInstance(InstanceKey(SHARED))];
    NoAccountExactlyWhenNothingIsListed(events, SHARED, []);
    assert After(INITIAL, events).instances == map[];
  }
}
