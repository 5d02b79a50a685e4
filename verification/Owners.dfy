/** Merging the owner references of a shared ServiceAccount. */
module Owners {
  import opened Objects

  type OwnerMap = map<ObjectKey, OwnerReference>

  /** The reference each key ends up with when a list is read into a Go map. */
  function ByKey(refs: seq<OwnerReference>): OwnerMap
  {
    if refs == [] then map[]
    else ByKey(refs[..|refs| - 1])[OwnerKey(refs[|refs| - 1]) := refs[|refs| - 1]]
  }

  ghost predicate DistinctKeys(refs: seq<OwnerReference>)
  {
    forall i, j :: 0 <= i < j < |refs| ==> OwnerKey(refs[i]) != OwnerKey(refs[j])
  }

  /** `refs` is what iterating over `m` may yield, in some order. */
  ghost predicate Lists(refs: seq<OwnerReference>, m: OwnerMap)
  {
    && DistinctKeys(refs)
    && (forall i :: 0 <= i < |refs| ==> OwnerKey(refs[i]) in m && m[OwnerKey(refs[i])] == refs[i])
    && (forall k <- m :: m[k] in refs)
  }

  function Merged(current: seq<OwnerReference>, desired: seq<OwnerReference>): OwnerMap
  {
    ByKey(current) + ByKey(desired)
  }

  /** The source's `mergeOwners`; the second loop picks keys in any order. */
  method MergeOwners(current: seq<OwnerReference>, desired: seq<OwnerReference>)
    returns (result: seq<OwnerReference>)
    ensures Lists(result, Merged(current, desired))
  {
    var owners: OwnerMap := map[];
    var all := current + desired;
    for i := 0 to |all|
      invariant owners == ByKey(all[..i])
    {
      assert all[..i + 1][..i] == all[..i];
      owners := owners[OwnerKey(all[i]) := all[i]];
    }
    assert all[..|all|] == all;
    ByKeyAppend(current, desired);
    MergedKeysMatch(current, desired);
    assert owners == Merged(current, desired);

    result := [];
    var left := owners.Keys;
    while left != {}
      invariant left <= owners.Keys
      invariant DistinctKeys(result)
      invariant forall i :: 0 <= i < |result| ==>
                  OwnerKey(result[i]) in owners.Keys - left && owners[OwnerKey(result[i])] == result[i]
      invariant forall k <- owners.Keys - left :: owners[k] in result
      decreases left
    {
      var k :| k in left;
      assert OwnerKey(owners[k]) == k;
      result := result + [owners[k]];
      left := left - {k};
    }
  }

  lemma {:induction false} ByKeyAppend(a: seq<OwnerReference>, b: seq<OwnerReference>)
    ensures ByKey(a + b) == ByKey(a) + ByKey(b)
  {
    if b == [] {
      assert a + b == a;
    } else {
      var init, last := b[..|b| - 1], b[|b| - 1];
      assert (a + b)[..|a + b| - 1] == a + init;
      ByKeyAppend(a, init);
    }
  }

  /** A key is in the map exactly when some reference has it, and then maps to
      a reference of the list. */
  lemma {:induction false} ByKeyHolds(refs: seq<OwnerReference>, k: ObjectKey)
    ensures k in ByKey(refs) ==> ByKey(refs)[k] in refs && OwnerKey(ByKey(refs)[k]) == k
    ensures forall r :: r in refs && OwnerKey(r) == k ==> k in ByKey(refs)
  {
    if refs != [] {
      var init, last := refs[..|refs| - 1], refs[|refs| - 1];
      ByKeyHolds(init, k);
      assert refs == init + [last];
    }
  }

  lemma {:induction false} DistinctKeysAreKept(refs: seq<OwnerReference>)
    requires DistinctKeys(refs)
    ensures |ByKey(refs)| == |refs|
    ensures forall r :: r in refs ==> OwnerKey(r) in ByKey(refs) && ByKey(refs)[OwnerKey(r)] == r
  {
    if refs != [] {
      var init, last := refs[..|refs| - 1], refs[|refs| - 1];
      DistinctKeysAreKept(init);
      ByKeyHolds(init, OwnerKey(last));
      assert refs == init + [last];
    }
  }

  /** Reading a listing back gives the map, whatever order it was listed in. */
  lemma ListingHasSameMap(refs: seq<OwnerReference>, m: OwnerMap)
    requires Lists(refs, m) && forall k <- m :: OwnerKey(m[k]) == k
    ensures ByKey(refs) == m && |refs| == |m|
  {
    DistinctKeysAreKept(refs);
    forall k: ObjectKey
      ensures k in ByKey(refs) <==> k in m
      ensures k in m ==> ByKey(refs)[k] == m[k]
    {
      ByKeyHolds(refs, k);
      if k in m {
        assert m[k] in refs;
      }
    }
    assert ByKey(refs) == m;
  }

  lemma MergedKeysMatch(current: seq<OwnerReference>, desired: seq<OwnerReference>)
    ensures forall k <- Merged(current, desired) :: OwnerKey(Merged(current, desired)[k]) == k
  {
    forall k <- Merged(current, desired)
      ensures OwnerKey(Merged(current, desired)[k]) == k
    {
      ByKeyHolds(current, k);
      ByKeyHolds(desired, k);
    }
  }

  /** Every map of owners can be listed in some order. */
  lemma {:induction false} ListingExists(m: OwnerMap) returns (refs: seq<OwnerReference>)
    requires forall k <- m :: OwnerKey(m[k]) == k
    ensures Lists(refs, m)
    decreases |m|
  {
    if m == map[] {
      refs := [];
    } else {
      var k :| k in m;
      var rest := m - {k};
      assert rest.Keys == m.Keys - {k};
      var init := ListingExists(rest);
      refs := init + [m[k]];
      forall j | j in m
        ensures m[j] in refs
      {
        if j == k {
          assert refs[|init|] == m[k];
        } else {
          assert rest[j] in init;
        }
      }
    }
  }

  /** mergeOwners refines map override for every iteration order. */
  lemma MergeRefinesOverride(current: seq<OwnerReference>, desired: seq<OwnerReference>, result: seq<OwnerReference>)
    requires Lists(result, Merged(current, desired))
    ensures ByKey(result) == ByKey(current) + ByKey(desired)
    ensures |result| == |ByKey(current) + ByKey(desired)|
  {
    MergedKeysMatch(current, desired);
    ListingHasSameMap(result, Merged(current, desired));
  }

  /** Desired references survive a merge verbatim, so a re-created instance's
      new UID wins over the old one. */
  lemma MergeKeepsDesired(current: seq<OwnerReference>, desired: seq<OwnerReference>, result: seq<OwnerReference>)
    requires Lists(result, Merged(current, desired)) && DistinctKeys(desired)
    ensures forall r :: r in desired ==> r in result
  {
    DistinctKeysAreKept(desired);
    forall r | r in desired
      ensures r in result
    {
      assert Merged(current, desired)[OwnerKey(r)] == r;
    }
  }

  /** Current owners that are not desired are kept with their last reference. */
  lemma MergeKeepsOthers(current: seq<OwnerReference>, desired: seq<OwnerReference>, result: seq<OwnerReference>)
    requires Lists(result, Merged(current, desired))
    ensures forall k <- ByKey(current) :: k !in ByKey(desired) ==> ByKey(current)[k] in result
  {
    forall k <- ByKey(current) | k !in ByKey(desired)
      ensures ByKey(current)[k] in result
    {
      assert Merged(current, desired)[k] == ByKey(current)[k];
    }
  }

  /** Merging the same desired list again only reorders. */
  lemma MergeAgainOnlyReorders(current: seq<OwnerReference>, desired: seq<OwnerReference>,
                               once: seq<OwnerReference>, twice: seq<OwnerReference>)
    requires Lists(once, Merged(current, desired))
    requires Lists(twice, Merged(once, desired))
    ensures ByKey(twice) == ByKey(once) && |twice| == |once| && multiset(twice) == multiset(once)
  {
    MergeRefinesOverride(current, desired, once);
    MergeRefinesOverride(once, desired, twice);
    OverrideTwice(ByKey(current), ByKey(desired));
    SameListing(once, twice, Merged(current, desired));
  }

  lemma OverrideTwice(a: OwnerMap, b: OwnerMap)
    ensures a + b + b == a + b
  {
  }

  lemma {:induction false} SameListing(a: seq<OwnerReference>, b: seq<OwnerReference>, m: OwnerMap)
    requires Lists(a, m) && Lists(b, m)
    ensures multiset(a) == multiset(b)
  {
    forall r: OwnerReference
      ensures multiset(a)[r] == multiset(b)[r]
    {
      DistinctCount(a, r);
      DistinctCount(b, r);
    }
  }

  lemma {:induction false} DistinctCount(a: seq<OwnerReference>, r: OwnerReference)
    requires DistinctKeys(a)
    ensures multiset(a)[r] == if r in a then 1 else 0
  {
    if a != [] {
      var init, last := a[..|a| - 1], a[|a| - 1];
      assert a == init + [last];
      DistinctCount(init, r);
    }
  }
}
