/** What the garbage collector leaves once all instances are gone. */
module ClusterCollection {
  import opened Objects
  import opened Components
  import opened Cluster
  import opened ClusterInvariant
  import opened ClusterDependents

  function ObjectCount(s: State): nat
  {
    |s.accounts| + |s.bindings| + |s.adapters|
  }

  ghost predicate Quiescent(s: State)
  {
    && (forall n :: n in s.accounts ==> !Collectible(s, s.accounts[n].meta.owners))
    && (forall n :: n in s.bindings ==> !Collectible(s, s.bindings[n].meta.owners))
    && (forall k :: k in s.adapters ==> !Collectible(s, s.adapters[k].meta.owners))
  }

  lemma RemovedMapIsSmaller<K, V>(m: map<K, V>, k: K)
    requires k in m
    ensures |m - {k}| == |m| - 1
  {
    assert (m - {k}).Keys == m.Keys - {k};
  }

  /** Each collection removes exactly one object. */
  lemma CollectionShrinks(s: State, e: Event)
    requires Enabled(s, e) && IsCollection(e)
    ensures ObjectCount(Apply(s, e)) == ObjectCount(s) - 1
    ensures Apply(s, e).instances == s.instances
  {
    match e
    case CollectAccount(n) => RemovedMapIsSmaller(s.accounts, n);
    case CollectBinding(n) => RemovedMapIsSmaller(s.bindings, n);
    case CollectAdapter(k) => RemovedMapIsSmaller(s.adapters, k);
  }

  /** So a cascade of collections ends after at most as many steps as there
      are objects. */
  lemma {:induction false} CascadeIsBounded(s: State, events: seq<Event>)
    requires IsRun(s, events) && forall e :: e in events ==> IsCollection(e)
    ensures |events| + ObjectCount(After(s, events)) == ObjectCount(s)
    ensures After(s, events).instances == s.instances
    decreases |events|
  {
    if events != [] {
      assert events[0] in events;
      CollectionShrinks(s, events[0]);
      CascadeIsBounded(Apply(s, events[0]), events[1..]);
    }
  }

  /** No owner ever makes the collector remove the account; by the invariant
      such an account is external. */
  predicate Unowned(a: ServiceAccount)
  {
    a.meta.owners == []
  }

  /** The UID is that of a stored account without owners. */
  ghost predicate IsUnownedUid(s: State, uid: nat)
  {
    exists n :: n in s.accounts && Unowned(s.accounts[n]) && s.accounts[n].meta.uid == uid
  }

  lemma InstanceUidIsDead(s: State, uid: nat)
    requires Inv(s) && s.instances == map[]
    requires exists i :: i in s.instancesSeen && i.uid == uid
    ensures !UidIsLive(s, uid)
  {
    var i :| i in s.instancesSeen && i.uid == uid;
    forall n | n in s.accounts
      ensures s.accounts[n].meta.uid != uid
    {
      assert s.accounts[n] in s.accountsSeen;
    }
    forall n | n in s.bindings
      ensures s.bindings[n].meta.uid != uid
    {
      assert s.bindings[n] in s.bindingsSeen;
    }
    forall k | k in s.adapters
      ensures s.adapters[k].meta.uid != uid
    {
      assert s.adapters[k] in s.adaptersSeen;
    }
  }

  lemma AccountUidLivesInAccount(s: State, uid: nat)
    requires Inv(s) && s.instances == map[]
    requires exists a :: a in s.accountsSeen && a.meta.uid == uid
    ensures UidIsLive(s, uid) ==> exists n :: n in s.accounts && s.accounts[n].meta.uid == uid
  {
    var a :| a in s.accountsSeen && a.meta.uid == uid;
    forall n | n in s.bindings
      ensures s.bindings[n].meta.uid != uid
    {
      assert s.bindings[n] in s.bindingsSeen;
    }
    forall k | k in s.adapters
      ensures s.adapters[k].meta.uid != uid
    {
      assert s.adapters[k] in s.adaptersSeen;
    }
  }

  /** Without instances, an account that has owners can be collected. */
  lemma OwnedIsCollectible(s: State, n: string)
    requires Inv(s) && s.instances == map[] && n in s.accounts && !Unowned(s.accounts[n])
    ensures Collectible(s, s.accounts[n].meta.owners)
  {
    var sa := s.accounts[n];
    assert AccountShape(s, sa);
    forall r | r in sa.meta.owners
      ensures !UidIsLive(s, r.uid)
    {
      assert RefersToInstance(s, r);
      InstanceUidIsDead(s, r.uid);
    }
  }

  /** Nothing is left but accounts without owners and what they own. */
  lemma QuiescentWithoutInstances(s: State)
    requires Inv(s) && s.instances == map[] && Quiescent(s)
    ensures forall n :: n in s.accounts ==> Unowned(s.accounts[n])
    ensures forall n :: n in s.bindings ==> IsUnownedUid(s, BindingOwner(s.bindings[n]))
    ensures forall k :: k in s.adapters ==> IsUnownedUid(s, AdapterOwner(s.adapters[k]))
  {
    forall n | n in s.accounts
      ensures Unowned(s.accounts[n])
    {
      if !Unowned(s.accounts[n]) {
        OwnedIsCollectible(s, n);
      }
    }
    forall n | n in s.bindings
      ensures IsUnownedUid(s, BindingOwner(s.bindings[n]))
    {
      LeftBindingIsOfUnowned(s, s.bindings[n]);
    }
    forall k | k in s.adapters
      ensures IsUnownedUid(s, AdapterOwner(s.adapters[k]))
    {
      LeftAdapterIsOfUnowned(s, s.adapters[k]);
    }
  }

  lemma LeftBindingIsOfUnowned(s: State, b: RoleBinding)
    requires Inv(s) && s.instances == map[] && b in s.bindingsSeen && !Collectible(s, b.meta.owners)
    requires forall n :: n in s.accounts ==> Unowned(s.accounts[n])
    ensures IsUnownedUid(s, BindingOwner(b))
  {
    assert BindingShape(s, b);
    var a :| a in s.accountsSeen && BoundTo(a, b);
    AccountUidLivesInAccount(s, a.meta.uid);
    assert b.meta.owners == [b.meta.owners[0]];
    assert UidIsLive(s, b.meta.owners[0].uid);
  }

  lemma LeftAdapterIsOfUnowned(s: State, d: Adapter)
    requires Inv(s) && s.instances == map[] && d in s.adaptersSeen && !Collectible(s, d.meta.owners)
    requires forall n :: n in s.accounts ==> Unowned(s.accounts[n])
    ensures IsUnownedUid(s, AdapterOwner(d))
  {
    AdapterOwnerIsOld(s, d);
    assert d.meta.owners == [d.meta.owners[0]];
    assert UidIsLive(s, d.meta.owners[0].uid);
    assert AdapterShape(s, d);
    if i :| i in s.instancesSeen && d.meta.owners == [InstanceRef(i, true)] {
      InstanceUidIsDead(s, i.uid);
    } else {
      var a :| a in s.accountsSeen && d.meta.owners == [AccountRef(a)];
      AccountUidLivesInAccount(s, a.meta.uid);
    }
  }

  // ------------------------------------------------------ what a cascade leaves

  /** What the accounts without owners and their dependents have in two states. */
  ghost predicate UnownedKept(s: State, t: State)
  {
    && (forall n :: n in s.accounts && Unowned(s.accounts[n]) ==> n in t.accounts && t.accounts[n] == s.accounts[n])
    && (forall n :: n in s.bindings && IsUnownedUid(s, BindingOwner(s.bindings[n])) ==>
          n in t.bindings && t.bindings[n] == s.bindings[n])
    && (forall k :: k in s.adapters && IsUnownedUid(s, AdapterOwner(s.adapters[k])) ==>
          k in t.adapters && t.adapters[k] == s.adapters[k])
  }

  ghost predicate Smaller(s: State, t: State)
  {
    && (forall n :: n in t.accounts ==> n in s.accounts && t.accounts[n] == s.accounts[n])
    && (forall n :: n in t.bindings ==> n in s.bindings && t.bindings[n] == s.bindings[n])
    && (forall k :: k in t.adapters ==> k in s.adapters && t.adapters[k] == s.adapters[k])
  }

  lemma OwnedByUnownedIsNotCollectible(s: State, owners: seq<OwnerReference>)
    requires owners != [] && IsUnownedUid(s, owners[0].uid)
    ensures !Collectible(s, owners)
  {
    assert owners[0] in owners;
    assert UidIsLive(s, owners[0].uid);
  }

  lemma CollectedBindingIsNotOfUnowned(s: State, n: string)
    requires Inv(s) && n in s.bindings && Collectible(s, s.bindings[n].meta.owners)
    ensures !IsUnownedUid(s, BindingOwner(s.bindings[n]))
  {
    BindingOwnerIsOld(s, s.bindings[n]);
    if IsUnownedUid(s, BindingOwner(s.bindings[n])) {
      OwnedByUnownedIsNotCollectible(s, s.bindings[n].meta.owners);
    }
  }

  lemma CollectedAdapterIsNotOfUnowned(s: State, k: AdapterKey)
    requires Inv(s) && k in s.adapters && Collectible(s, s.adapters[k].meta.owners)
    ensures !IsUnownedUid(s, AdapterOwner(s.adapters[k]))
  {
    AdapterOwnerIsOld(s, s.adapters[k]);
    if IsUnownedUid(s, AdapterOwner(s.adapters[k])) {
      OwnedByUnownedIsNotCollectible(s, s.adapters[k].meta.owners);
    }
  }

  lemma AccountCollectionKeepsUnowned(s: State, n: string)
    requires Inv(s) && n in s.accounts && Collectible(s, s.accounts[n].meta.owners)
    ensures var t := s.(accounts := s.accounts - {n}); UnownedKept(s, t) && Smaller(s, t)
  {
  }

  lemma BindingCollectionKeepsUnowned(s: State, n: string)
    requires Inv(s) && n in s.bindings && Collectible(s, s.bindings[n].meta.owners)
    ensures var t := s.(bindings := s.bindings - {n}); UnownedKept(s, t) && Smaller(s, t)
  {
    CollectedBindingIsNotOfUnowned(s, n);
  }

  lemma AdapterCollectionKeepsUnowned(s: State, k: AdapterKey)
    requires Inv(s) && k in s.adapters && Collectible(s, s.adapters[k].meta.owners)
    ensures var t := s.(adapters := s.adapters - {k}); UnownedKept(s, t) && Smaller(s, t)
  {
    CollectedAdapterIsNotOfUnowned(s, k);
  }

  /** A collection takes nothing of an account without owners. */
  lemma CollectionKeepsUnowned(s: State, e: Event)
    requires Inv(s) && Enabled(s, e) && IsCollection(e)
    ensures UnownedKept(s, Apply(s, e)) && Smaller(s, Apply(s, e))
  {
    if e.CollectAccount? {
      AccountCollectionKeepsUnowned(s, e.name);
    } else if e.CollectBinding? {
      BindingCollectionKeepsUnowned(s, e.name);
    } else {
      AdapterCollectionKeepsUnowned(s, e.adapterKey);
    }
  }

  lemma UnownedUidSurvives(s: State, t: State, uid: nat)
    requires UnownedKept(s, t) && IsUnownedUid(s, uid)
    ensures IsUnownedUid(t, uid)
  {
    var n :| n in s.accounts && Unowned(s.accounts[n]) && s.accounts[n].meta.uid == uid;
    assert n in t.accounts;
  }

  lemma UnownedKeptCompose(s: State, t: State, u: State)
    requires UnownedKept(s, t) && UnownedKept(t, u)
    ensures UnownedKept(s, u)
  {
    forall n | n in s.bindings && IsUnownedUid(s, BindingOwner(s.bindings[n]))
      ensures n in u.bindings && u.bindings[n] == s.bindings[n]
    {
      UnownedUidSurvives(s, t, BindingOwner(s.bindings[n]));
    }
    forall k | k in s.adapters && IsUnownedUid(s, AdapterOwner(s.adapters[k]))
      ensures k in u.adapters && u.adapters[k] == s.adapters[k]
    {
      UnownedUidSurvives(s, t, AdapterOwner(s.adapters[k]));
    }
  }

  lemma {:induction false} CascadeKeepsUnowned(s: State, events: seq<Event>)
    requires Inv(s) && IsRun(s, events) && forall e :: e in events ==> IsCollection(e)
    ensures UnownedKept(s, After(s, events)) && Smaller(s, After(s, events)) && Inv(After(s, events))
    decreases |events|
  {
    if events != [] {
      assert events[0] in events;
      var t := Apply(s, events[0]);
      StepKeepsInv(s, events[0]);
      CollectionKeepsUnowned(s, events[0]);
      CascadeKeepsUnowned(t, events[1..]);
      UnownedKeptCompose(s, t, After(t, events[1..]));
    }
  }

  /** No leak, exactly: once all instances are deleted and a cascade of
      collections has come to rest, what is left are the accounts without
      owners, which are external, and the objects that a reconcile made them own. */
  lemma CascadeLeavesExactlyUnowned(s: State, events: seq<Event>)
    requires Inv(s) && s.instances == map[] && IsRun(s, events) && forall e :: e in events ==> IsCollection(e)
    requires Quiescent(After(s, events))
    ensures var t := After(s, events);
            && (forall n :: n in t.accounts <==> n in s.accounts && Unowned(s.accounts[n]))
            && (forall n :: n in t.accounts ==> !Managed(t.accounts[n]))
            && (forall n :: n in t.bindings <==> n in s.bindings && IsUnownedUid(s, BindingOwner(s.bindings[n])))
            && (forall k :: k in t.adapters <==> k in s.adapters && IsUnownedUid(s, AdapterOwner(s.adapters[k])))
  {
    var t := After(s, events);
    CascadeKeepsUnowned(s, events);
    CascadeIsBounded(s, events);
    QuiescentWithoutInstances(t);
    forall n | n in t.accounts
      ensures !Managed(t.accounts[n])
    {
      assert AccountShape(t, t.accounts[n]);
    }
    forall uid | IsUnownedUid(t, uid)
      ensures IsUnownedUid(s, uid)
    {
      var n :| n in t.accounts && Unowned(t.accounts[n]) && t.accounts[n].meta.uid == uid;
      assert n in s.accounts;
    }
  }

  /** Where every stored account is managed, or at least owned, nothing is left. */
  lemma NothingIsLeftOfOwnedAccounts(s: State, events: seq<Event>)
    requires Inv(s) && s.instances == map[] && IsRun(s, events) && forall e :: e in events ==> IsCollection(e)
    requires Quiescent(After(s, events)) && forall n :: n in s.accounts ==> Managed(s.accounts[n]) || !Unowned(s.accounts[n])
    ensures var t := After(s, events); t.accounts == map[] && t.bindings == map[] && t.adapters == map[]
  {
    forall n | n in s.accounts
      ensures !Unowned(s.accounts[n])
    {
      assert AccountShape(s, s.accounts[n]);
    }
    CascadeLeavesExactlyUnowned(s, events);
  }
}
