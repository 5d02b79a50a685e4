/** The number of adapters of an owner, over runs in which the caches of that
    owner's adapters are current. */
module ClusterAdapters {
  import opened Wrappers
  import opened Objects
  import opened Components
  import opened Semantic
  import opened AdapterLookup
  import opened Cluster
  import opened ClusterInvariant
  import opened ClusterSafety
  import opened ClusterDependents
  import AdapterBuilder
  import AdapterOptions
  import AdapterAgreement
  import AdapterAspects

  /** The Pod of an adapter runs as the account that the reconciliation of the
      RBAC objects returned. */
  lemma PodRunsAsReturnedAccount(events: seq<Event>, rcl: Instance, sa: ServiceAccount, backend: Backend,
                                 namespace: string, sink: string, extra: seq<AdapterBuilder.ObjectOption>)
    requires IsRun(INITIAL, events) && (rcl, sa) in After(INITIAL, events).returned
    requires AdapterAgreement.AllLeave(extra, AdapterAspects.OfAccount)
    ensures AdapterOptions.InstanceAdapter(backend, rcl, namespace, sink, extra).template.serviceAccountName == sa.meta.name
    ensures AdapterOptions.SharedAdapter(backend, rcl, namespace, extra).template.serviceAccountName == sa.meta.name
  {
    ReachableStatesSatisfyInv(events);
    assert ReturnedOk(After(INITIAL, events), rcl, sa);
    AdapterAgreement.PodRunsAsReconciledAccount(backend, rcl, namespace, sink, extra, []);
  }

  // ------------------------------------------------------- counting adapters

  /** Whose adapters are counted: those of `rcl`, controlled by `uid`. */
  datatype Subject = Subject(rcl: Instance, uid: nat, backend: Backend)

  predicate Counts(u: Subject, a: Adapter)
  {
    a.backend == u.backend && Accepts(u.rcl, u.uid, a)
  }

  function AdaptersOf(s: State, u: Subject): set<AdapterKey>
  {
    set k | k in s.adapters && Counts(u, s.adapters[k])
  }

  predicate IsAdapterStep(e: Event)
  {
    e.CreateAdapter? || e.SyncAdapter?
  }

  /** The adapters that a step looks for. */
  function SubjectOf(e: Event): Subject
    requires IsAdapterStep(e) && e.desired.meta.owners != []
  {
    Subject(e.rcl, e.desired.meta.owners[0].uid, e.desired.backend)
  }

  /** The step wants an adapter that it would find again, and what it found is
      still there: nothing for a creation, one of the owner's adapters, whose
      copy may be an old one, for a sync. */
  ghost predicate Fresh(s: State, e: Event)
    requires IsAdapterStep(e) && e.desired.meta.owners != []
  {
    && HasLabels(e.desired.meta.labels, LookupLabels(e.rcl))
    && (e.CreateAdapter? ==> AdaptersOf(s, SubjectOf(e)) == {})
    && (e.SyncAdapter? ==>
          AdapterKey(e.cachedAdapter.backend, e.cachedAdapter.meta.name) in AdaptersOf(s, SubjectOf(e)))
  }

  lemma AdapterStepHasOwner(s: State, e: Event)
    requires Enabled(s, e) && IsAdapterStep(e)
    ensures |e.desired.meta.owners| == 1 && e.desired.meta.owners[0].controller == Some(true)
    ensures ControllerOf(e.desired.meta.owners) == Some(e.desired.meta.owners[0])
  {
  }

  /** A step for another owner, or for another backend, does not count. */
  ghost predicate Related(u: Subject, e: Event)
    requires IsAdapterStep(e) && e.desired.meta.owners != []
  {
    e.desired.meta.owners[0].uid == u.uid && e.desired.backend == u.backend
  }

  lemma CreateCounts(s: State, e: Event, u: Subject)
    requires e.CreateAdapter? && Enabled(s, e) && e.desired.meta.owners != []
    requires Related(u, e) ==> HasLabels(e.desired.meta.labels, LookupLabels(u.rcl))
    ensures AdaptersOf(Apply(s, e), u) == AdaptersOf(s, u)
            + (if Related(u, e) then {AdapterKey(e.desired.backend, e.desired.meta.name)} else {})
  {
    AdapterStepHasOwner(s, e);
  }

  /** An accepted update meets the very copy that was cached, and replaces it
      by one with the desired owner and labels. */
  lemma SyncedAdapter(s: State, desired: Adapter, cached: Adapter, defaults: Adapter) returns (a: Adapter)
    requires AdaptersOk(s) && cached in s.adaptersSeen && cached.backend == desired.backend
    ensures a.backend == cached.backend && a.meta.name == cached.meta.name && a.meta.owners == desired.meta.owners
    ensures a.meta.labels == defaults.meta.labels + desired.meta.labels
    ensures a.template.serviceAccountName
            == FillText(desired.template.serviceAccountName, defaults.template.serviceAccountName)
    ensures ApplySyncAdapter(s, desired, cached, defaults).adaptersSeen <= s.adaptersSeen + {a}
    ensures var s' := ApplySyncAdapter(s, desired, cached, defaults);
            var k := AdapterKey(cached.backend, cached.meta.name);
            s'.adapters == s.adapters || (k in s.adapters && s.adapters[k] == cached && s'.adapters == s.adapters[k := a])
  {
    var update := AdapterUpdate(desired, cached);
    a := Fill(update, defaults);
    if AcceptsAdapter(s, update) {
      var k := AdapterKey(update.backend, update.meta.name);
      assert s.adapters[k] in s.adaptersSeen;
      a := a.(meta := Stamp(a.meta, s.adapters[k].meta.uid, s.clock));
    }
  }

  lemma ReplacingCounts(s: State, s': State, u: Subject, k: AdapterKey, a: Adapter)
    requires s'.adapters == s.adapters
             || (k in s.adapters && s'.adapters == s.adapters[k := a] && (Counts(u, s.adapters[k]) <==> Counts(u, a)))
    ensures AdaptersOf(s', u) == AdaptersOf(s, u)
  {
  }

  lemma OverlaidCounts(u: Subject, desired: Adapter, d: StringMap, a: Adapter)
    requires a.backend == u.backend && ControlledBy(desired, u.uid) && a.meta.owners == desired.meta.owners
    requires HasLabels(desired.meta.labels, LookupLabels(u.rcl)) && a.meta.labels == d + desired.meta.labels
    ensures Counts(u, a)
  {
  }

  /** A sync for the owner keeps the adapters that it found. */
  lemma SyncCounts(s: State, e: Event, u: Subject)
    requires e.SyncAdapter? && Inv(s) && Enabled(s, e) && e.desired.meta.owners != []
    requires Related(u, e) && HasLabels(e.desired.meta.labels, LookupLabels(u.rcl))
    requires AdapterKey(e.cachedAdapter.backend, e.cachedAdapter.meta.name) in AdaptersOf(s, u)
    ensures AdaptersOf(Apply(s, e), u) == AdaptersOf(s, u)
  {
    AdapterStepHasOwner(s, e);
    var a := SyncedAdapter(s, e.desired, e.cachedAdapter, e.defaults);
    OverlaidCounts(u, e.desired, e.defaults.meta.labels, a);
    ReplacingCounts(s, Apply(s, e), u, AdapterKey(e.cachedAdapter.backend, e.cachedAdapter.meta.name), a);
  }

  /** A sync for another owner or backend, whatever it saw, leaves them alone:
      the adapter that it replaces has that owner before and after. */
  lemma UnrelatedSyncCounts(s: State, e: Event, u: Subject)
    requires e.SyncAdapter? && Inv(s) && Enabled(s, e) && e.desired.meta.owners != [] && !Related(u, e)
    ensures AdaptersOf(Apply(s, e), u) == AdaptersOf(s, u)
  {
    AdapterStepHasOwner(s, e);
    var a := SyncedAdapter(s, e.desired, e.cachedAdapter, e.defaults);
    assert !Counts(u, a) && !Counts(u, e.cachedAdapter);
    ReplacingCounts(s, Apply(s, e), u, AdapterKey(e.cachedAdapter.backend, e.cachedAdapter.meta.name), a);
  }

  // ------------------------------------------------------------ built adapters

  /** The step wants what the builder makes of its instance. */
  ghost predicate WantsBuilt(e: Event, namespace: string, sink: string, extra: seq<AdapterBuilder.ObjectOption>)
    requires IsAdapterStep(e)
  {
    if e.rcl.multiTenant then
      e.owner.Some?
      && e.desired == AdapterOptions.OwnByServiceAccount(
           AdapterOptions.SharedAdapter(e.desired.backend, e.rcl, namespace, extra), e.owner.value)
    else e.desired == AdapterOptions.InstanceAdapter(e.desired.backend, e.rcl, namespace, sink, extra)
  }

  /** A step that wants a built adapter will find it again exactly when the
      overrides agree. */
  lemma BuiltIsFoundExactlyWhenAgreed(s: State, e: Event, namespace: string, sink: string,
                                      extra: seq<AdapterBuilder.ObjectOption>)
    requires IsAdapterStep(e) && Enabled(s, e)
    requires WantsBuilt(e, namespace, sink, extra) && AdapterAgreement.LeaveLookup(extra)
    ensures HasLabels(e.desired.meta.labels, LookupLabels(e.rcl)) <==> AdapterAgreement.OverridesAgree(e.rcl)
  {
    AdapterStepHasOwner(s, e);
    if e.rcl.multiTenant {
      AdapterAgreement.SharedAdapterIsFound(e.desired.backend, e.rcl, namespace, extra, e.owner.value);
    } else {
      AdapterAgreement.InstanceAdapterIsFound(e.desired.backend, e.rcl, namespace, sink, extra);
    }
  }

  lemma FillKeepsMismatch(a: Adapter, defaults: Adapter, selector: StringMap)
    requires selector.Keys <= a.meta.labels.Keys && !HasLabels(a.meta.labels, selector)
    ensures !HasLabels(Fill(a, defaults).meta.labels, selector)
  {
    var k :| k in selector && a.meta.labels[k] != selector[k];
    assert Fill(a, defaults).meta.labels[k] == a.meta.labels[k];
  }

  lemma MismatchIsLost(s: State, e: Event)
    requires e.CreateAdapter? && Enabled(s, e)
    requires LookupLabels(e.rcl).Keys <= e.desired.meta.labels.Keys
    requires !HasLabels(e.desired.meta.labels, LookupLabels(e.rcl))
    ensures AdaptersOf(Apply(s, e), SubjectOf(e)) == AdaptersOf(s, SubjectOf(e)) && !Enabled(Apply(s, e), e)
  {
    FillKeepsMismatch(e.desired, e.defaults, LookupLabels(e.rcl));
  }

  /** When they do not agree, the created adapter is lost to its own instance,
      or to all instances of its kind: it does not count as one of the adapters
      that they look for, and since it has the name that the next reconcile
      would create, that one fails. */
  lemma DisagreeingAdapterIsLost(s: State, e: Event, namespace: string, sink: string,
                                 extra: seq<AdapterBuilder.ObjectOption>)
    requires e.CreateAdapter? && Enabled(s, e)
    requires WantsBuilt(e, namespace, sink, extra) && AdapterAgreement.LeaveLookup(extra)
    requires !AdapterAgreement.OverridesAgree(e.rcl)
    ensures AdaptersOf(Apply(s, e), SubjectOf(e)) == AdaptersOf(s, SubjectOf(e)) && !Enabled(Apply(s, e), e)
  {
    BuiltIsFoundExactlyWhenAgreed(s, e, namespace, sink, extra);
    if e.rcl.multiTenant {
      AdapterAgreement.SharedAdapterHasKeys(e.desired.backend, e.rcl, namespace, extra);
    } else {
      AdapterAgreement.InstanceAdapterHasKeys(e.desired.backend, e.rcl, namespace, sink, extra);
    }
    MismatchIsLost(s, e);
  }

  // ------------------------------------------------------------ over all runs

  /** A subject that some reconcile may have: an instance that controls its own
      adapter, or an account that was returned for a multi-tenant instance. */
  ghost predicate IsSubject(s: State, u: Subject)
  {
    && u.rcl in s.instancesSeen
    && (!u.rcl.multiTenant ==> u.uid == u.rcl.uid)
    && (u.rcl.multiTenant ==> exists sa :: (u.rcl, sa) in s.returned && sa.meta.uid == u.uid)
  }

  lemma SharedAccountsTellLabels(s: State, x: Instance, a: ServiceAccount, y: Instance, b: ServiceAccount)
    requires Inv(s) && (x, a) in s.returned && (y, b) in s.returned && a.meta.uid == b.meta.uid
    requires x.multiTenant && y.multiTenant
    ensures LookupLabels(x) == LookupLabels(y)
  {
    assert ReturnedOk(s, x, a) && ReturnedOk(s, y, b);
    assert CanStore(s, x) && CanStore(s, y);
    SharedAccountIsTheSameForAll(x, x, []);
    SharedAccountIsTheSameForAll(y, y, []);
    SharedNamesAreInjective(x.kind, y.kind);
  }

  lemma AccountUidIsNoInstance(s: State, x: Instance, sa: ServiceAccount, i: Instance)
    requires Inv(s) && (x, sa) in s.returned && i in s.instancesSeen
    ensures sa.meta.uid != i.uid
  {
    assert ReturnedOk(s, x, sa);
  }

  /** Subjects of one owner look for the same labels. */
  lemma SubjectsLookTheSame(s: State, u: Subject, v: Subject)
    requires Inv(s) && IsSubject(s, u) && IsSubject(s, v) && u.uid == v.uid
    ensures LookupLabels(u.rcl) == LookupLabels(v.rcl)
  {
    if u.rcl.multiTenant {
      var sa :| (u.rcl, sa) in s.returned && sa.meta.uid == u.uid;
      AccountUidIsNoInstance(s, u.rcl, sa, v.rcl);
      var sb :| (v.rcl, sb) in s.returned && sb.meta.uid == v.uid;
      SharedAccountsTellLabels(s, u.rcl, sa, v.rcl, sb);
    } else if v.rcl.multiTenant {
      var sb :| (v.rcl, sb) in s.returned && sb.meta.uid == v.uid;
      AccountUidIsNoInstance(s, v.rcl, sb, u.rcl);
    }
  }

  lemma StepHasSubject(s: State, e: Event)
    requires IsAdapterStep(e) && Enabled(s, e) && e.desired.meta.owners != []
    ensures IsSubject(s, SubjectOf(e))
  {
  }

  /** Steps for one owner look for the same labels, whoever takes them. */
  lemma RelatedLookTheSame(s: State, e: Event, u: Subject)
    requires Inv(s) && IsSubject(s, u) && IsAdapterStep(e) && Enabled(s, e) && e.desired.meta.owners != [] && Related(u, e)
    ensures LookupLabels(u.rcl) == LookupLabels(e.rcl)
  {
    StepHasSubject(s, e);
    SubjectsLookTheSame(s, u, SubjectOf(e));
  }

  lemma SameLookupCountsSame(s: State, u: Subject, v: Subject)
    requires u.uid == v.uid && u.backend == v.backend && LookupLabels(u.rcl) == LookupLabels(v.rcl)
    ensures AdaptersOf(s, u) == AdaptersOf(s, v)
  {
    assert forall k :: k in s.adapters ==> Counts(u, s.adapters[k]) == Counts(v, s.adapters[k]);
  }

  ghost predicate ReconcilesFor(u: Subject, e: Event)
  {
    IsAdapterStep(e) && e.desired.meta.owners != [] && Related(u, e)
  }

  /** A step that is taken for the owner is fresh, and no adapter of the owner
      is collected. Nothing is asked of steps for other owners. */
  ghost predicate FreshStep(s: State, e: Event, u: Subject)
  {
    && (ReconcilesFor(u, e) ==> Fresh(s, e))
    && (e.CollectAdapter? ==> e.adapterKey !in AdaptersOf(s, u))
  }

  ghost predicate FreshRun(s: State, events: seq<Event>, u: Subject)
    requires IsRun(s, events)
    decreases |events|
  {
    events == [] || (FreshStep(s, events[0], u) && FreshRun(Apply(s, events[0]), events[1..], u))
  }

  function AtLeastOne(n: nat): nat
  {
    if n == 0 then 1 else n
  }

  lemma StepKeepsSubject(s: State, e: Event, u: Subject)
    requires IsSubject(s, u) && Enabled(s, e)
    ensures IsSubject(Apply(s, e), u)
  {
    StepGrowsRecords(s, e);
  }

  lemma StepGrowsRecords(s: State, e: Event)
    requires Enabled(s, e)
    ensures s.instancesSeen <= Apply(s, e).instancesSeen && s.returned <= Apply(s, e).returned
  {
  }

  lemma RelatedCreateSawNone(s: State, e: Event, u: Subject)
    requires e.CreateAdapter? && Inv(s) && IsSubject(s, u) && Enabled(s, e) && e.desired.meta.owners != []
    requires Related(u, e) && Fresh(s, e)
    ensures AdaptersOf(s, u) == {} && LookupLabels(u.rcl) == LookupLabels(e.rcl)
  {
    RelatedLookTheSame(s, e, u);
    SameLookupCountsSame(s, u, SubjectOf(e));
  }

  lemma CountsOne(before: set<AdapterKey>, after: set<AdapterKey>, k: AdapterKey)
    requires before == {} && after == before + {k}
    ensures |after| == AtLeastOne(|before|)
  {
    assert after == {k};
  }

  lemma CreateStepCounts(s: State, e: Event, u: Subject)
    requires e.CreateAdapter? && Inv(s) && IsSubject(s, u) && Enabled(s, e) && FreshStep(s, e, u)
    ensures |AdaptersOf(Apply(s, e), u)|
            == if ReconcilesFor(u, e) then AtLeastOne(|AdaptersOf(s, u)|) else |AdaptersOf(s, u)|
  {
    AdapterStepHasOwner(s, e);
    if Related(u, e) {
      RelatedCreateSawNone(s, e, u);
      CreateCounts(s, e, u);
      CountsOne(AdaptersOf(s, u), AdaptersOf(Apply(s, e), u), AdapterKey(e.desired.backend, e.desired.meta.name));
    } else {
      CreateCounts(s, e, u);
    }
  }

  lemma SyncStepCounts(s: State, e: Event, u: Subject)
    requires e.SyncAdapter? && Inv(s) && IsSubject(s, u) && Enabled(s, e) && FreshStep(s, e, u)
    ensures |AdaptersOf(Apply(s, e), u)|
            == if ReconcilesFor(u, e) then AtLeastOne(|AdaptersOf(s, u)|) else |AdaptersOf(s, u)|
  {
    AdapterStepHasOwner(s, e);
    if Related(u, e) {
      RelatedLookTheSame(s, e, u);
      SameLookupCountsSame(s, u, SubjectOf(e));
      assert AdapterKey(e.cachedAdapter.backend, e.cachedAdapter.meta.name) in AdaptersOf(s, u);
      SyncCounts(s, e, u);
    } else {
      UnrelatedSyncCounts(s, e, u);
    }
  }

  lemma OtherStepCounts(s: State, e: Event, u: Subject)
    requires Enabled(s, e) && !IsAdapterStep(e) && FreshStep(s, e, u)
    ensures AdaptersOf(Apply(s, e), u) == AdaptersOf(s, u)
  {
    if e.CollectAdapter? {
      assert forall k :: k in s.adapters && Counts(u, s.adapters[k]) ==> k in Apply(s, e).adapters;
    } else {
      StepLeavesDependents(s, e);
    }
  }

  /** However many reconciles ran, whatever else happened, one owner ends up
      with one adapter, or with as many as it had before when there were more
      already. */
  lemma {:induction false} RunLeavesOneAdapter(s: State, events: seq<Event>, u: Subject)
    requires Inv(s) && IsSubject(s, u) && IsRun(s, events) && FreshRun(s, events, u)
    ensures |AdaptersOf(After(s, events), u)|
            == if exists e :: e in events && ReconcilesFor(u, e) then AtLeastOne(|AdaptersOf(s, u)|) else |AdaptersOf(s, u)|
    decreases |events|
  {
    if events != [] {
      var e := events[0];
      StepKeepsInv(s, e);
      StepKeepsSubject(s, e, u);
      if e.CreateAdapter? {
        CreateStepCounts(s, e, u);
      } else if e.SyncAdapter? {
        SyncStepCounts(s, e, u);
      } else {
        OtherStepCounts(s, e, u);
      }
      RunLeavesOneAdapter(Apply(s, e), events[1..], u);
      SplitExists(events, u);
    }
  }

  lemma SplitExists(events: seq<Event>, u: Subject)
    requires events != []
    ensures (exists e :: e in events && ReconcilesFor(u, e))
            <==> ReconcilesFor(u, events[0]) || exists e :: e in events[1..] && ReconcilesFor(u, e)
  {
    assert events == [events[0]] + events[1..];
    assert events[0] in events;
  }

  // ------------------------------------------------------------- living owners

  /** The collector takes no adapter of an owner that lives. */
  lemma LiveOwnerKeepsAdapters(s: State, u: Subject, k: AdapterKey)
    requires UidIsLive(s, u.uid) && Enabled(s, CollectAdapter(k))
    ensures k !in AdaptersOf(s, u)
  {
  }

  /** Every step that is taken for the owner is fresh. */
  ghost predicate ReconcilesAreFresh(s: State, events: seq<Event>, u: Subject)
    requires IsRun(s, events)
    decreases |events|
  {
    events == []
    || ((ReconcilesFor(u, events[0]) ==> Fresh(s, events[0])) && ReconcilesAreFresh(Apply(s, events[0]), events[1..], u))
  }

  lemma StepKeepsInstance(s: State, e: Event, rcl: Instance)
    requires Enabled(s, e) && Lives(s, rcl) && e != DeleteInstance(InstanceKey(rcl))
    ensures Lives(Apply(s, e), rcl)
  {
  }

  lemma {:induction false} LivingInstanceMakesRunFresh(s: State, events: seq<Event>, u: Subject)
    requires IsRun(s, events) && ReconcilesAreFresh(s, events, u)
    requires Lives(s, u.rcl) && u.uid == u.rcl.uid && DeleteInstance(InstanceKey(u.rcl)) !in events
    ensures FreshRun(s, events, u)
    decreases |events|
  {
    if events != [] {
      var e := events[0];
      assert UidIsLive(s, u.uid);
      if e.CollectAdapter? {
        LiveOwnerKeepsAdapters(s, u, e.adapterKey);
      }
      StepKeepsInstance(s, e, u.rcl);
      LivingInstanceMakesRunFresh(Apply(s, e), events[1..], u);
    }
  }

  /** An instance that is not deleted has one adapter of its own from its first
      reconcile on, whatever the collector and all other reconcilers do. */
  lemma LivingInstanceHasOneAdapter(s: State, events: seq<Event>, u: Subject)
    requires Inv(s) && IsSubject(s, u) && !u.rcl.multiTenant && Lives(s, u.rcl)
    requires IsRun(s, events) && ReconcilesAreFresh(s, events, u) && DeleteInstance(InstanceKey(u.rcl)) !in events
    ensures |AdaptersOf(After(s, events), u)|
            == if exists e :: e in events && ReconcilesFor(u, e) then AtLeastOne(|AdaptersOf(s, u)|) else |AdaptersOf(s, u)|
  {
    LivingInstanceMakesRunFresh(s, events, u);
    RunLeavesOneAdapter(s, events, u);
  }

  lemma {:induction false} LivingAccountMakesRunFresh(s: State, events: seq<Event>, u: Subject, sa: ServiceAccount)
    requires Secure(s, sa.meta.name) && IsRun(s, events) && IsCurrentRun(s, events, sa.meta.name) && ReconcilesAreFresh(s, events, u)
    requires (u.rcl, sa) in s.returned && Managed(sa) && u.uid == sa.meta.uid
    requires Lives(s, u.rcl) && DeleteInstance(InstanceKey(u.rcl)) !in events
    ensures FreshRun(s, events, u)
    decreases |events|
  {
    if events != [] {
      var e := events[0];
      SecureAccount(s, u.rcl, sa);
      assert UidIsLive(s, u.uid);
      if e.CollectAdapter? {
        LiveOwnerKeepsAdapters(s, u, e.adapterKey);
      }
      StepKeepsInstance(s, e, u.rcl);
      StepGrowsRecords(s, e);
      StepKeepsSecure(s, e, sa.meta.name);
      LivingAccountMakesRunFresh(Apply(s, e), events[1..], u, sa);
    }
  }

  /** The same for the adapter that all instances of a kind share, as long as
      one instance that was reconciled with the account lives and the account is
      written from current lists. */
  lemma LivingAccountHasOneAdapter(s: State, events: seq<Event>, u: Subject, sa: ServiceAccount)
    requires Secure(s, sa.meta.name) && u.rcl.multiTenant && (u.rcl, sa) in s.returned && Managed(sa) && u.uid == sa.meta.uid
    requires IsRun(s, events) && IsCurrentRun(s, events, sa.meta.name) && ReconcilesAreFresh(s, events, u)
    requires Lives(s, u.rcl) && DeleteInstance(InstanceKey(u.rcl)) !in events
    ensures |AdaptersOf(After(s, events), u)|
            == if exists e :: e in events && ReconcilesFor(u, e) then AtLeastOne(|AdaptersOf(s, u)|) else |AdaptersOf(s, u)|
  {
    assert ReturnedOk(s, u.rcl, sa);
    LivingAccountMakesRunFresh(s, events, u, sa);
    RunLeavesOneAdapter(s, events, u);
  }
}
