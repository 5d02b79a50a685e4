/** Runs in which every adapter is one that the builder makes of an instance:
    names and accounts of the stored adapters, whatever the caches returned. */
module ClusterBuilt {
  import opened Objects
  import opened Components
  import opened Semantic
  import opened AdapterLookup
  import opened Cluster
  import opened ClusterInvariant
  import opened ClusterDependents
  import opened ClusterAdapters
  import AdapterBuilder
  import AdapterOptions
  import AdapterAgreement
  import AdapterAspects

  /** The component's own options leave the account of the Pods, the owner and
      the labels of the lookup alone. */
  ghost predicate IsOwnOptions(extra: seq<AdapterBuilder.ObjectOption>)
  {
    AdapterAgreement.AllLeave(extra, AdapterAspects.OfAccount) && AdapterAgreement.LeaveLookup(extra)
  }

  /** The step, if it is for an adapter, wants a built one. */
  ghost predicate IsBuiltStep(e: Event)
  {
    IsAdapterStep(e) ==>
      exists namespace, sink, extra :: WantsBuilt(e, namespace, sink, extra) && IsOwnOptions(extra)
  }

  ghost predicate IsBuiltRun(events: seq<Event>)
  {
    forall e :: e in events ==> IsBuiltStep(e)
  }

  // ------------------------------------------------------------------- names

  function InstanceAdapterName(i: Instance): string
  {
    ChildName(ComponentName(i.kind) + "-", i.name)
  }

  /** The owner with this UID is an instance, or the account of multi-tenant
      instances, whose adapter has the name. */
  ghost predicate NamedFor(s: State, name: string, uid: nat)
  {
    || (exists i :: i in s.instancesSeen && i.uid == uid && name == InstanceAdapterName(i))
    || (exists i, sa :: (i, sa) in s.returned && i.multiTenant && sa.meta.uid == uid && name == MTAdapterObjectName(i.kind))
  }

  lemma SharedAccountName(s: State, i: Instance, sa: ServiceAccount)
    requires Inv(s) && (i, sa) in s.returned && i.multiTenant
    ensures sa in s.accountsSeen && i in s.instancesSeen && sa.meta.name == MTAdapterObjectName(i.kind)
    ensures DesiredAccount(i, []).meta.name == sa.meta.name
  {
    assert ReturnedOk(s, i, sa) && CanStore(s, i);
    SharedAccountIsTheSameForAll(i, i, []);
  }

  /** An owner has one name for its adapters, whichever copies of it were seen. */
  lemma OneNamePerOwner(s: State, m: string, n: string, uid: nat)
    requires Inv(s) && NamedFor(s, m, uid) && NamedFor(s, n, uid)
    ensures m == n
  {
    forall i, sa | (i, sa) in s.returned && i.multiTenant
      ensures sa in s.accountsSeen && sa.meta.name == MTAdapterObjectName(i.kind)
    {
      SharedAccountName(s, i, sa);
    }
  }

  // ---------------------------------------------------------------- accounts

  /** The Pods of the owner with this UID run as the account that one of its
      copies asks for, or as the owner itself when that is an account. */
  ghost predicate RunsFor(s: State, account: string, uid: nat)
  {
    || (exists i :: i in s.instancesSeen && i.uid == uid && TextBelow(DesiredAccount(i, []).meta.name, account))
    || (exists sa :: sa in s.accountsSeen && sa.meta.uid == uid && account == sa.meta.name)
  }

  lemma BuiltRunsFor(s: State, e: Event, account: string)
    requires Inv(s) && Enabled(s, e) && IsAdapterStep(e) && IsBuiltStep(e) && e.desired.meta.owners != []
    requires account == FillText(e.desired.template.serviceAccountName, e.defaults.template.serviceAccountName)
    ensures RunsFor(s, account, e.desired.meta.owners[0].uid)
  {
    var namespace, sink, extra :| WantsBuilt(e, namespace, sink, extra) && IsOwnOptions(extra);
    AdapterAgreement.PodRunsAsReconciledAccount(e.desired.backend, e.rcl, namespace, sink, extra, []);
    if e.rcl.multiTenant {
      SharedAccountName(s, e.rcl, e.owner.value);
    }
  }

  /** A built adapter has the name of its owner. */
  lemma BuiltIsNamed(s: State, e: Event)
    requires Enabled(s, e) && IsAdapterStep(e) && IsBuiltStep(e) && e.desired.meta.owners != []
    ensures NamedFor(s, e.desired.meta.name, e.desired.meta.owners[0].uid)
  {
    var namespace, sink, extra :| WantsBuilt(e, namespace, sink, extra) && IsOwnOptions(extra);
    if e.rcl.multiTenant {
      AdapterAgreement.BuiltIdentity(e.desired.backend, e.rcl, MTAdapterObjectName(e.rcl.kind),
                                     AdapterOptions.SharedOptions(namespace) + extra);
      assert (e.rcl, e.owner.value) in s.returned;
    } else {
      AdapterAgreement.BuiltIdentity(e.desired.backend, e.rcl, InstanceAdapterName(e.rcl),
                                     AdapterOptions.InstanceOptions(e.desired.backend, e.rcl, namespace, sink) + extra);
    }
  }

  // --------------------------------------------------------- over all runs

  /** The adapter has the name and the Pods' account of its controller. */
  ghost predicate FitsOwner(s: State, d: Adapter)
  {
    var c := ControllerOf(d.meta.owners);
    c.Some? && NamedFor(s, d.meta.name, c.value.uid) && RunsFor(s, d.template.serviceAccountName, c.value.uid)
  }

  ghost predicate AllFit(s: State)
  {
    forall d :: d in s.adaptersSeen ==> FitsOwner(s, d)
  }

  ghost predicate RecordsGrow(s: State, s': State)
  {
    s.instancesSeen <= s'.instancesSeen && s.accountsSeen <= s'.accountsSeen && s.returned <= s'.returned
  }

  lemma StepGrowsAllRecords(s: State, e: Event)
    requires Enabled(s, e)
    ensures RecordsGrow(s, Apply(s, e))
  {
  }

  lemma FitGrows(s: State, s': State, d: Adapter)
    requires FitsOwner(s, d) && RecordsGrow(s, s')
    ensures FitsOwner(s', d)
  {
  }

  lemma MoreFit(s: State, s': State, a: Adapter)
    requires AllFit(s) && RecordsGrow(s, s') && s'.adaptersSeen <= s.adaptersSeen + {a} && FitsOwner(s, a)
    ensures AllFit(s')
  {
    forall d | d in s'.adaptersSeen
      ensures FitsOwner(s', d)
    {
      FitGrows(s, s', d);
    }
  }

  lemma CreateKeepsFit(s: State, e: Event)
    requires e.CreateAdapter? && Inv(s) && AllFit(s) && Enabled(s, e) && IsBuiltStep(e)
    ensures AllFit(Apply(s, e))
  {
    AdapterStepHasOwner(s, e);
    BuiltIsNamed(s, e);
    var stored := Fill(e.desired, e.defaults);
    BuiltRunsFor(s, e, stored.template.serviceAccountName);
    StepGrowsAllRecords(s, e);
    MoreFit(s, Apply(s, e), stored.(meta := Stamp(stored.meta, s.clock, s.clock)));
  }

  /** A sync keeps the name of the adapter that it found, and its owner. */
  lemma SyncKeepsFit(s: State, e: Event)
    requires e.SyncAdapter? && Inv(s) && AllFit(s) && Enabled(s, e) && IsBuiltStep(e)
    ensures AllFit(Apply(s, e))
  {
    AdapterStepHasOwner(s, e);
    var a := SyncedAdapter(s, e.desired, e.cachedAdapter, e.defaults);
    assert FitsOwner(s, e.cachedAdapter);
    BuiltRunsFor(s, e, a.template.serviceAccountName);
    StepGrowsAllRecords(s, e);
    MoreFit(s, Apply(s, e), a);
  }

  lemma OtherKeepsFit(s: State, e: Event)
    requires AllFit(s) && Enabled(s, e) && !IsAdapterStep(e)
    ensures AllFit(Apply(s, e))
  {
    StepLeavesSeen(s, e);
    StepGrowsAllRecords(s, e);
    forall d | d in Apply(s, e).adaptersSeen
      ensures FitsOwner(Apply(s, e), d)
    {
      FitGrows(s, Apply(s, e), d);
    }
  }

  lemma StepLeavesSeen(s: State, e: Event)
    requires Enabled(s, e) && !IsAdapterStep(e)
    ensures Apply(s, e).adaptersSeen == s.adaptersSeen
  {
    if !e.CollectAdapter? {
      StepLeavesDependents(s, e);
    }
  }

  lemma StepKeepsFit(s: State, e: Event)
    requires Inv(s) && AllFit(s) && Enabled(s, e) && IsBuiltStep(e)
    ensures AllFit(Apply(s, e))
  {
    if e.CreateAdapter? {
      CreateKeepsFit(s, e);
    } else if e.SyncAdapter? {
      SyncKeepsFit(s, e);
    } else {
      OtherKeepsFit(s, e);
    }
  }

  lemma {:induction false} RunKeepsFit(s: State, events: seq<Event>)
    requires Inv(s) && AllFit(s) && IsRun(s, events) && IsBuiltRun(events)
    ensures AllFit(After(s, events))
    decreases |events|
  {
    if events != [] {
      assert events[0] in events;
      StepKeepsInv(s, events[0]);
      StepKeepsFit(s, events[0]);
      RunKeepsFit(Apply(s, events[0]), events[1..]);
    }
  }

  lemma BuiltRunFits(events: seq<Event>)
    requires IsRun(INITIAL, events) && IsBuiltRun(events)
    ensures Inv(After(INITIAL, events)) && AllFit(After(INITIAL, events))
  {
    ReachableStatesSatisfyInv(events);
    RunKeepsFit(INITIAL, events);
  }

  lemma FitAdaptersAreUnique(s: State, uid: nat, j: AdapterKey, k: AdapterKey)
    requires Inv(s) && AllFit(s) && j in s.adapters && k in s.adapters && j.backend == k.backend
    requires ControlledBy(s.adapters[j], uid) && ControlledBy(s.adapters[k], uid)
    ensures j == k
  {
    assert FitsOwner(s, s.adapters[j]) && FitsOwner(s, s.adapters[k]);
    OneNamePerOwner(s, s.adapters[j].meta.name, s.adapters[k].meta.name, uid);
  }

  lemma AtMostOne<T>(s: set<T>)
    requires forall x, y :: x in s && y in s ==> x == y
    ensures |s| <= 1
  {
    if s != {} {
      var x :| x in s;
      assert s == {x};
    }
  }

  /** However stale the caches were, two stored adapters of one backend never
      have the same controller, and a reconcile never finds more than one. */
  lemma BuiltAdaptersAreUnique(events: seq<Event>, s: State, u: Subject)
    requires IsRun(INITIAL, events) && IsBuiltRun(events) && s == After(INITIAL, events)
    ensures forall j, k ::
              (j in s.adapters && k in s.adapters && j.backend == k.backend
               && ControlledBy(s.adapters[j], u.uid) && ControlledBy(s.adapters[k], u.uid)) ==> j == k
    ensures |AdaptersOf(s, u)| <= 1
  {
    BuiltRunFits(events);
    forall j, k | j in s.adapters && k in s.adapters && j.backend == k.backend
                  && ControlledBy(s.adapters[j], u.uid) && ControlledBy(s.adapters[k], u.uid)
      ensures j == k
    {
      FitAdaptersAreUnique(s, u.uid, j, k);
    }
    AtMostOne(AdaptersOf(s, u));
  }

  /** The Pods of a stored adapter run as the account of its owner: the owner
      itself, for an adapter that an account controls, else the account that a
      copy of the controlling instance asks for. */
  lemma StoredPodsRunAsOwnersAccount(events: seq<Event>, s: State, d: Adapter)
    requires IsRun(INITIAL, events) && IsBuiltRun(events) && s == After(INITIAL, events) && d in s.adaptersSeen
    ensures ControllerOf(d.meta.owners).Some?
    ensures var uid := ControllerOf(d.meta.owners).value.uid;
            && (forall sa :: sa in s.accountsSeen && sa.meta.uid == uid ==> d.template.serviceAccountName == sa.meta.name)
            && ((forall sa :: sa in s.accountsSeen ==> sa.meta.uid != uid) ==>
                  exists i :: i in s.instancesSeen && i.uid == uid
                              && TextBelow(DesiredAccount(i, []).meta.name, d.template.serviceAccountName))
  {
    BuiltRunFits(events);
    assert FitsOwner(s, d);
  }

  // ------------------------------------------------- exactly one adapter each

  /** A step for the owner is for an instance whose overrides agree. */
  predicate AgreesFor(e: Event, uid: nat)
  {
    IsAdapterStep(e) && e.desired.meta.owners != [] && e.desired.meta.owners[0].uid == uid ==>
      AdapterAgreement.OverridesAgree(e.rcl)
  }

  ghost predicate IsFindable(s: State, d: Adapter, uid: nat)
  {
    exists v: Subject :: IsSubject(s, v) && v.uid == uid && HasLabels(d.meta.labels, LookupLabels(v.rcl))
  }

  /** Every adapter that the owner ever had has the labels that it looks for. */
  ghost predicate AllFindable(s: State, uid: nat)
  {
    forall d :: d in s.adaptersSeen && AdapterOwner(d) == uid ==> IsFindable(s, d, uid)
  }

  lemma FindableGrows(s: State, s': State, d: Adapter, uid: nat)
    requires IsFindable(s, d, uid) && RecordsGrow(s, s')
    ensures IsFindable(s', d, uid)
  {
    var v: Subject :| IsSubject(s, v) && v.uid == uid && HasLabels(d.meta.labels, LookupLabels(v.rcl));
    assert IsSubject(s', v);
  }

  lemma MoreFindable(s: State, s': State, a: Adapter, uid: nat)
    requires AllFindable(s, uid) && RecordsGrow(s, s') && s'.adaptersSeen <= s.adaptersSeen + {a}
    requires AdapterOwner(a) == uid ==> IsFindable(s, a, uid)
    ensures AllFindable(s', uid)
  {
    forall d | d in s'.adaptersSeen && AdapterOwner(d) == uid
      ensures IsFindable(s', d, uid)
    {
      FindableGrows(s, s', d, uid);
    }
  }

  lemma BuiltIsFindable(s: State, e: Event, a: Adapter)
    requires IsAdapterStep(e) && Enabled(s, e) && IsBuiltStep(e) && AdapterAgreement.OverridesAgree(e.rcl)
    requires e.desired.meta.owners != [] && a.meta.labels == e.defaults.meta.labels + e.desired.meta.labels
    ensures IsFindable(s, a, e.desired.meta.owners[0].uid)
  {
    var namespace, sink, extra :| WantsBuilt(e, namespace, sink, extra) && IsOwnOptions(extra);
    BuiltIsFoundExactlyWhenAgreed(s, e, namespace, sink, extra);
    StepHasSubject(s, e);
    assert HasLabels(a.meta.labels, LookupLabels(SubjectOf(e).rcl));
  }

  /** The copy that an adapter step stores, if any. */
  lemma StoredByStep(s: State, e: Event) returns (a: Adapter)
    requires Inv(s) && IsAdapterStep(e) && Enabled(s, e)
    ensures |e.desired.meta.owners| == 1 && a.meta.owners == e.desired.meta.owners && a.backend == e.desired.backend
    ensures a.meta.labels == e.defaults.meta.labels + e.desired.meta.labels
    ensures Apply(s, e).adaptersSeen <= s.adaptersSeen + {a}
    ensures e.CreateAdapter? ==> a in Apply(s, e).adaptersSeen
  {
    AdapterStepHasOwner(s, e);
    if e.CreateAdapter? {
      var stored := Fill(e.desired, e.defaults);
      a := stored.(meta := Stamp(stored.meta, s.clock, s.clock));
    } else {
      a := SyncedAdapter(s, e.desired, e.cachedAdapter, e.defaults);
    }
  }

  lemma StepKeepsFindable(s: State, e: Event, uid: nat)
    requires Inv(s) && AllFindable(s, uid) && Enabled(s, e) && IsBuiltStep(e) && AgreesFor(e, uid)
    ensures AllFindable(Apply(s, e), uid)
  {
    StepGrowsAllRecords(s, e);
    if IsAdapterStep(e) {
      var a := StoredByStep(s, e);
      if AdapterOwner(a) == uid {
        BuiltIsFindable(s, e, a);
      }
      MoreFindable(s, Apply(s, e), a, uid);
    } else {
      StepLeavesSeen(s, e);
      forall d | d in Apply(s, e).adaptersSeen && AdapterOwner(d) == uid
        ensures IsFindable(Apply(s, e), d, uid)
      {
        FindableGrows(s, Apply(s, e), d, uid);
      }
    }
  }

  /** The owner had an adapter of the backend at some time. */
  ghost predicate HadAdapter(s: State, u: Subject)
  {
    exists d :: d in s.adaptersSeen && d.backend == u.backend && AdapterOwner(d) == u.uid
  }

  lemma HadAdapterAfterStep(s: State, e: Event, u: Subject)
    requires Inv(s) && Enabled(s, e)
    ensures HadAdapter(Apply(s, e), u) <==> HadAdapter(s, u) || ReconcilesFor(u, e)
  {
    if IsAdapterStep(e) {
      var a := StoredByStep(s, e);
      StepGrowsSeen(s, e);
      if e.SyncAdapter? {
        AdapterOwnerIsOld(s, e.cachedAdapter);
      }
    } else {
      StepLeavesSeen(s, e);
    }
  }

  lemma StepGrowsSeen(s: State, e: Event)
    requires Enabled(s, e)
    ensures s.adaptersSeen <= Apply(s, e).adaptersSeen
  {
  }

  lemma {:induction false} RunKeepsFindable(s: State, events: seq<Event>, u: Subject)
    requires Inv(s) && AllFindable(s, u.uid) && AdaptersHeld(s) && IsRun(s, events) && IsBuiltRun(events)
    requires forall e :: e in events ==> AgreesFor(e, u.uid)
    ensures AllFindable(After(s, events), u.uid) && AdaptersHeld(After(s, events))
    ensures HadAdapter(After(s, events), u) <==> HadAdapter(s, u) || exists e :: e in events && ReconcilesFor(u, e)
    decreases |events|
  {
    if events != [] {
      var e := events[0];
      assert e in events;
      StepKeepsInv(s, e);
      StepKeepsAdaptersHeld(s, e);
      StepKeepsFindable(s, e, u.uid);
      HadAdapterAfterStep(s, e, u);
      RunKeepsFindable(Apply(s, e), events[1..], u);
      SplitExists(events, u);
    }
  }

  /** The adapter that a living owner had is there and is found. */
  lemma HadAdapterCounts(s: State, u: Subject)
    requires Inv(s) && AdaptersHeld(s) && AllFindable(s, u.uid) && IsSubject(s, u) && OwnerLives(s, u.uid)
    ensures HadAdapter(s, u) <==> AdaptersOf(s, u) != {}
  {
    if HadAdapter(s, u) {
      var d :| d in s.adaptersSeen && d.backend == u.backend && AdapterOwner(d) == u.uid;
      assert AdapterKept(s, d);
      var stored := s.adapters[KeyOfAdapter(d)];
      AdapterOwnerIsOld(s, stored);
      assert IsFindable(s, stored, u.uid);
      var v: Subject :| IsSubject(s, v) && v.uid == u.uid && HasLabels(stored.meta.labels, LookupLabels(v.rcl));
      SubjectsLookTheSame(s, u, v);
      assert KeyOfAdapter(d) in AdaptersOf(s, u);
    }
    if AdaptersOf(s, u) != {} {
      var k :| k in AdaptersOf(s, u);
      AdapterOwnerIsOld(s, s.adapters[k]);
    }
  }

  lemma HistoryFromInitial(events: seq<Event>, u: Subject)
    requires IsRun(INITIAL, events) && IsBuiltRun(events) && forall e :: e in events ==> AgreesFor(e, u.uid)
    ensures var s := After(INITIAL, events);
            && Inv(s) && AllFindable(s, u.uid) && AdaptersHeld(s)
            && (HadAdapter(s, u) <==> exists e :: e in events && ReconcilesFor(u, e))
  {
    ReachableStatesSatisfyInv(events);
    RunKeepsFindable(INITIAL, events, u);
  }

  lemma AtMostOneIsOneOrNone<T>(s: set<T>)
    requires |s| <= 1
    ensures |s| == if s != {} then 1 else 0
  {
  }

  /** However stale the caches were and whatever else happened: a living owner
      whose overrides always agreed has exactly one adapter once a reconcile was
      taken for it, and none before. */
  lemma LivingOwnerHasExactlyOneAdapter(events: seq<Event>, s: State, u: Subject)
    requires IsRun(INITIAL, events) && IsBuiltRun(events) && s == After(INITIAL, events)
    requires forall e :: e in events ==> AgreesFor(e, u.uid)
    requires IsSubject(s, u) && OwnerLives(s, u.uid)
    ensures |AdaptersOf(s, u)| == if exists e :: e in events && ReconcilesFor(u, e) then 1 else 0
  {
    HistoryFromInitial(events, u);
    HadAdapterCounts(s, u);
    BuiltAdaptersAreUnique(events, s, u);
    AtMostOneIsOneOrNone(AdaptersOf(s, u));
  }
}
