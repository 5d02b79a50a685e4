/** The canonical lists of event types that sources report. */
module EventTypes {
  import opened Wrappers
  import opened Text
  import opened Sorting

  const AWS_PREFIX := "com.amazon."
  const S3_TEST_EVENT := "testevent"
  const BLOB_CREATED := "Microsoft.Storage.BlobCreated"
  const BLOB_DELETED := "Microsoft.Storage.BlobDeleted"

  function AWSEventType(service: string, typ: string): string
  {
    AWS_PREFIX + service + "." + typ
  }

  function TrimS3(s: string): string
  {
    if |s| >= 3 && s[..3] == "s3:" then s[3..] else s
  }

  /** "s3:ObjectCreated:*" selects "objectcreated". */
  function NormalisedS3(spec: string): string
  {
    ToLower(Split(TrimS3(spec), ':')[0])
  }

  function Selected(types: seq<string>): set<string>
  {
    set i | 0 <= i < |types| :: types[i]
  }

  function SelectedS3(types: seq<string>): set<string>
  {
    set i | 0 <= i < |types| :: NormalisedS3(types[i])
  }

  // --------------------------------------------------------- sorted sets

  /** `list` is what sorting the members of `s` gives. */
  ghost predicate IsSortedSet(list: seq<string>, s: set<string>)
  {
    Sorted(list) && multiset(list) == multiset(s)
  }

  /** Such a list has no duplicates, and there is only one for each set, in
      whatever order the members were visited. */
  lemma SortedSetIsCanonical(a: seq<string>, s: set<string>, b: seq<string>, t: set<string>)
    requires IsSortedSet(a, s) && IsSortedSet(b, t)
    ensures StrictlySorted(a) && (forall x :: x in a <==> x in s)
    ensures a == b <==> s == t
  {
    SortedSetIsStrict(a, s);
    forall x: string
      ensures x in a <==> x in s
      ensures x in b <==> x in t
    {
      assert x in a <==> x in multiset(a);
      assert x in b <==> x in multiset(b);
    }
    if s == t {
      SortedListsAreEqual(a, b);
    }
    if a == b {
      assert forall x :: x in s <==> x in t;
    }
  }

  lemma TwiceInASequence(a: seq<string>, i: nat, j: nat)
    requires i < j < |a| && a[i] == a[j]
    ensures multiset(a)[a[i]] >= 2
  {
    assert a == a[..j] + a[j..];
    assert a[i] in multiset(a[..j]) && a[j] in multiset(a[j..]) by {
      assert a[..j][i] == a[i] && a[j..][0] == a[j];
    }
  }

  lemma SortedSetIsStrict(a: seq<string>, s: set<string>)
    requires IsSortedSet(a, s)
    ensures StrictlySorted(a)
  {
    forall i, j | 0 <= i < j < |a|
      ensures Less(a[i], a[j])
    {
      LessIsTotal(a[i], a[j]);
      if a[i] == a[j] {
        TwiceInASequence(a, i, j);
      }
    }
  }

  // -------------------------------------------------------------- Azure sources

  /** The loop that appends the selected types, in any order. */
  method Collect(selected: set<string>) returns (list: seq<string>)
    ensures multiset(list) == multiset(selected)
  {
    list := [];
    var left := selected;
    while left != {}
      invariant left <= selected && multiset(list) == multiset(selected - left)
      decreases left
    {
      var t :| t in left;
      list := list + [t];
      assert selected - (left - {t}) == (selected - left) + {t};
      left := left - {t};
    }
    assert selected - {} == selected;
  }

  /** The loop that fills the set of selected types. */
  method Select(types: seq<string>) returns (selected: set<string>)
    ensures selected == Selected(types)
  {
    selected := {};
    for i := 0 to |types|
      invariant selected == Selected(types[..i])
    {
      assert types[..i + 1] == types[..i] + [types[i]];
      SelectedSnoc(types[..i], types[i]);
      if types[i] !in selected {
        selected := selected + {types[i]};
      }
    }
    assert types[..|types|] == types;
  }

  lemma SelectedSnoc(types: seq<string>, t: string)
    ensures Selected(types + [t]) == Selected(types) + {t}
  {
    var all := types + [t];
    forall x | x in Selected(types)
      ensures x in Selected(all)
    {
      var i :| 0 <= i < |types| && types[i] == x;
      assert all[i] == x;
    }
    assert all[|types|] == t;
  }

  /** AzureBlobStorageSource.GetEventTypes; None stands for an unset list. */
  method BlobEventTypes(types: Option<seq<string>>) returns (list: seq<string>)
    ensures types.None? ==> list == ["Microsoft.Storage.BlobCreated", "Microsoft.Storage.BlobDeleted"]
    ensures types.Some? ==> IsSortedSet(list, Selected(types.value))
    ensures types.Some? ==> StrictlySorted(list) && forall x :: x in list <==> x in types.value
  {
    if types.None? {
      return [BLOB_CREATED, BLOB_DELETED];
    }
    var selected := Select(types.value);
    list := Collect(selected);
    SortSorts(list);
    list := Sort(list);
    ListHoldsTypes(list, types.value);
  }

  /** AzureEventGridSource.GetEventTypes; None stands for a nil result. */
  method GridEventTypes(types: seq<string>) returns (list: Option<seq<string>>)
    ensures list.None? <==> types == []
    ensures list.Some? ==> IsSortedSet(list.value, Selected(types))
    ensures list.Some? ==> StrictlySorted(list.value) && forall x :: x in list.value <==> x in types
  {
    if |types| == 0 {
      return None;
    }
    var selected := Select(types);
    var eventTypes := Collect(selected);
    SortSorts(eventTypes);
    list := Some(Sort(eventTypes));
    ListHoldsTypes(list.value, types);
  }

  lemma ListHoldsTypes(list: seq<string>, types: seq<string>)
    requires IsSortedSet(list, Selected(types))
    ensures StrictlySorted(list) && forall x :: x in list <==> x in types
  {
    SortedSetIsCanonical(list, Selected(types), list, Selected(types));
  }

  lemma {:induction false} CommonPrefixOrder(prefix: string, a: string, b: string)
    ensures Less(prefix + a, prefix + b) == Less(a, b)
  {
    if prefix == "" {
      assert prefix + a == a && prefix + b == b;
    } else {
      CommonPrefixOrder(prefix[1..], a, b);
      assert (prefix + a)[1..] == prefix[1..] + a && (prefix + b)[1..] == prefix[1..] + b;
    }
  }

  lemma PairIsSorted(a: string, b: string)
    requires Less(a, b)
    ensures IsSortedSet([a, b], {a, b})
  {
    LessIsTotal(a, b);
    assert multiset([a, b]) == multiset({a, b});
  }

  lemma CreatedComesFirst(prefix: string)
    ensures Less(prefix + "Created", prefix + "Deleted")
  {
    CommonPrefixOrder(prefix, "Created", "Deleted");
  }

  /** The default pair is sorted and distinct as well. */
  lemma DefaultPairIsCanonical()
    ensures IsSortedSet([BLOB_CREATED, BLOB_DELETED], {BLOB_CREATED, BLOB_DELETED})
  {
    CreatedComesFirst("Microsoft.Storage.Blob");
    PairIsSorted("Microsoft.Storage.Blob" + "Created", "Microsoft.Storage.Blob" + "Deleted");
    assert BLOB_CREATED == "Microsoft.Storage.Blob" + "Created" && BLOB_DELETED == "Microsoft.Storage.Blob" + "Deleted";
  }

  // ------------------------------------------------------------------ the S3 source

  function TypesOf(service: string, s: set<string>): set<string>
  {
    set t | t in s :: AWSEventType(service, t)
  }

  lemma AWSTypesAreInjective(service: string, a: string, b: string)
    requires AWSEventType(service, a) == AWSEventType(service, b)
    ensures a == b
  {
    var n := |AWS_PREFIX + service + "."|;
    assert AWSEventType(service, a)[n..] == a && AWSEventType(service, b)[n..] == b;
  }

  /** What the list for S3 holds: the selected types and one test event. */
  ghost predicate IsS3List(list: seq<string>, service: string, s: set<string>)
  {
    Sorted(list) && multiset(list) == multiset{AWSEventType(service, S3_TEST_EVENT)} + multiset(TypesOf(service, s))
  }

  lemma OneMoreType(service: string, s: set<string>, t: string)
    requires t !in s
    ensures multiset(TypesOf(service, s + {t})) == multiset(TypesOf(service, s)) + multiset{AWSEventType(service, t)}
  {
    var x := AWSEventType(service, t);
    if x in TypesOf(service, s) {
      var u :| u in s && AWSEventType(service, u) == x;
      AWSTypesAreInjective(service, t, u);
    }
    assert TypesOf(service, s + {t}) == TypesOf(service, s) + {x};
  }

  lemma SelectedS3Snoc(types: seq<string>, t: string)
    ensures SelectedS3(types + [t]) == SelectedS3(types) + {NormalisedS3(t)}
  {
    var all := types + [t];
    forall x | x in SelectedS3(types)
      ensures x in SelectedS3(all)
    {
      var i :| 0 <= i < |types| && NormalisedS3(types[i]) == x;
      assert all[i] == types[i];
    }
    assert all[|types|] == t;
  }

  /** AWSS3Source.GetEventTypes. */
  method S3EventTypes(service: string, types: seq<string>) returns (list: seq<string>)
    ensures IsS3List(list, service, SelectedS3(types))
  {
    var selected: set<string> := {};
    for i := 0 to |types|
      invariant selected == SelectedS3(types[..i])
    {
      assert types[..i + 1] == types[..i] + [types[i]];
      SelectedS3Snoc(types[..i], types[i]);
      if NormalisedS3(types[i]) !in selected {
        selected := selected + {NormalisedS3(types[i])};
      }
    }
    assert types[..|types|] == types;

    list := [AWSEventType(service, S3_TEST_EVENT)];
    var left := selected;
    while left != {}
      invariant left <= selected
      invariant multiset(list) == multiset{AWSEventType(service, S3_TEST_EVENT)} + multiset(TypesOf(service, selected - left))
      decreases left
    {
      var t :| t in left;
      list := list + [AWSEventType(service, t)];
      OneMoreType(service, selected - left, t);
      assert selected - (left - {t}) == (selected - left) + {t};
      left := left - {t};
    }
    assert selected - {} == selected;
    SortSorts(list);
    list := Sort(list);
  }

  lemma TypesTellSelection(service: string, s: set<string>, t: set<string>)
    requires TypesOf(service, s) <= TypesOf(service, t)
    ensures s <= t
  {
    forall x | x in s
      ensures x in t
    {
      assert AWSEventType(service, x) in TypesOf(service, t);
      var y :| y in t && AWSEventType(service, y) == AWSEventType(service, x);
      AWSTypesAreInjective(service, x, y);
    }
  }

  lemma SetFromMultiset(s: set<string>, t: set<string>)
    requires multiset(s) == multiset(t)
    ensures s == t
  {
    assert forall x :: x in s <==> x in multiset(s);
    assert forall x :: x in t <==> x in multiset(t);
  }

  /** Two specs give the same list, for any orders of iteration, if and only if
      they select the same normalised types. */
  lemma S3ListIsCanonical(service: string, a: seq<string>, s: set<string>, b: seq<string>, t: set<string>)
    requires IsS3List(a, service, s) && IsS3List(b, service, t)
    ensures a == b <==> s == t
  {
    if s == t {
      SortedListsAreEqual(a, b);
    }
    if a == b {
      var test := multiset{AWSEventType(service, S3_TEST_EVENT)};
      assert multiset(TypesOf(service, s)) == multiset(a) - test == multiset(b) - test == multiset(TypesOf(service, t));
      SetFromMultiset(TypesOf(service, s), TypesOf(service, t));
      TypesTellSelection(service, s, t);
      TypesTellSelection(service, t, s);
    }
  }

  lemma TestEventIsSelected(service: string, s: set<string>)
    ensures AWSEventType(service, S3_TEST_EVENT) in TypesOf(service, s) <==> S3_TEST_EVENT in s
  {
    if AWSEventType(service, S3_TEST_EVENT) in TypesOf(service, s) {
      var t :| t in s && AWSEventType(service, t) == AWSEventType(service, S3_TEST_EVENT);
      AWSTypesAreInjective(service, t, S3_TEST_EVENT);
    }
  }

  /** The list has no duplicates exactly when the spec does not itself select
      the test event; then that one is listed twice, and nothing else is. */
  lemma S3ListIsDistinctExactlyWhen(service: string, list: seq<string>, s: set<string>)
    requires IsS3List(list, service, s)
    ensures StrictlySorted(list) <==> S3_TEST_EVENT !in s
    ensures multiset(list)[AWSEventType(service, S3_TEST_EVENT)] == if S3_TEST_EVENT in s then 2 else 1
    ensures forall x :: x != AWSEventType(service, S3_TEST_EVENT) ==> multiset(list)[x] <= 1
  {
    var test := AWSEventType(service, S3_TEST_EVENT);
    TestEventIsSelected(service, s);
    if S3_TEST_EVENT in s {
      StrictHasNoTwice(list, test);
    } else {
      assert multiset(list) == multiset(TypesOf(service, s) + {test});
      SortedSetIsStrict(list, TypesOf(service, s) + {test});
    }
  }

  lemma {:induction false} StrictHasNoTwice(list: seq<string>, x: string)
    ensures StrictlySorted(list) ==> multiset(list)[x] <= 1
  {
    if list != [] {
      var init, last := list[..|list| - 1], list[|list| - 1];
      assert list == init + [last];
      StrictHasNoTwice(init, x);
      if StrictlySorted(list) && x == last && x in init {
        var i :| 0 <= i < |init| && init[i] == x;
        assert Less(list[i], list[|list| - 1]);
        LessIsTotal(x, x);
      }
    }
  }

  /** Of a type as it stands in a spec, "s3:ObjectCreated:*", the element after
      the prefix counts, in small letters; the prefix may be missing. */
  lemma PlainTypeNormalises(t: string)
    requires ':' !in t
    ensures NormalisedS3("s3:" + t) == ToLower(t) && NormalisedS3(t) == ToLower(t)
  {
    assert TrimS3("s3:" + t) == t;
    assert TrimS3(t) == t by {
      assert "s3:"[2] == ':';
    }
    SplitFree(t, ':');
  }

  lemma FirstElementNormalises(t: string, rest: string)
    requires ':' !in t
    ensures NormalisedS3("s3:" + t + ":" + rest) == ToLower(t)
    ensures t != "s3" ==> NormalisedS3(t + ":" + rest) == ToLower(t)
  {
    assert "s3:" + t + ":" + rest == "s3:" + (t + ":" + rest);
    assert TrimS3("s3:" + (t + ":" + rest)) == t + ":" + rest;
    SplitAfterFree(t, rest, ':');
    assert t + [':'] + rest == t + ":" + rest;
    if TrimS3(t + ":" + rest) != t + ":" + rest {
      OnlyPrefixIsTrimmed(t, rest);
    }
  }

  lemma OnlyPrefixIsTrimmed(t: string, rest: string)
    requires ':' !in t && TrimS3(t + ":" + rest) != t + ":" + rest
    ensures t == "s3"
  {
    var s := t + ":" + rest;
    assert s[0] == 's' && s[1] == '3' && s[2] == ':' by {
      assert s[..3][0] == s[0] && s[..3][1] == s[1] && s[..3][2] == s[2];
    }
    assert |t| == 2;
  }

  lemma ObjectCreatedIsLowered()
    ensures ToLower("ObjectCreated") == "objectcreated"
  {
  }

  lemma CreatedHasNoColon()
    ensures ':' !in "ObjectCreated"
  {
  }

  /** The usual form of a type in a spec. */
  lemma ObjectCreatedNormalises()
    ensures NormalisedS3("s3:" + "ObjectCreated" + ":" + "*") == "objectcreated"
  {
    CreatedHasNoColon();
    FirstElementNormalises("ObjectCreated", "*");
    ObjectCreatedIsLowered();
  }

  /** What the list for S3 holds, written out. */
  lemma S3ListHolds(list: seq<string>, service: string, types: seq<string>)
    requires IsS3List(list, service, SelectedS3(types))
    ensures forall x :: x in list <==>
              || x == "com.amazon." + service + "." + "testevent"
              || exists i :: 0 <= i < |types| && x == "com.amazon." + service + "." + NormalisedS3(types[i])
  {
    forall x
      ensures x in list <==>
                || x == "com.amazon." + service + "." + "testevent"
                || exists i :: 0 <= i < |types| && x == "com.amazon." + service + "." + NormalisedS3(types[i])
    {
      assert x in list <==> x in multiset(list);
      assert x in multiset(list) <==> x == AWSEventType(service, S3_TEST_EVENT) || x in TypesOf(service, SelectedS3(types));
      if x in TypesOf(service, SelectedS3(types)) {
        var t :| t in SelectedS3(types) && AWSEventType(service, t) == x;
        var i :| 0 <= i < |types| && NormalisedS3(types[i]) == t;
      }
      forall i | 0 <= i < |types| && x == "com.amazon." + service + "." + NormalisedS3(types[i])
        ensures x in TypesOf(service, SelectedS3(types))
      {
        assert NormalisedS3(types[i]) in SelectedS3(types);
        assert x == AWSEventType(service, NormalisedS3(types[i]));
      }
    }
  }

  lemma TestEventIsLowered()
    ensures ToLower("TestEvent") == S3_TEST_EVENT
  {
  }

  lemma TestEventNormalises()
    ensures NormalisedS3("s3:" + "TestEvent") == S3_TEST_EVENT
  {
    PlainTypeNormalises("TestEvent");
    TestEventIsLowered();
  }

  /** A spec that selects the test event itself gets it twice. */
  lemma TestEventCanBeListedTwice(service: string, list: seq<string>)
    requires IsS3List(list, service, SelectedS3(["s3:" + "TestEvent"]))
    ensures multiset(list)[AWSEventType(service, S3_TEST_EVENT)] == 2
  {
    TestEventNormalises();
    var types := ["s3:" + "TestEvent"];
    assert NormalisedS3(types[0]) in SelectedS3(types);
    S3ListIsDistinctExactlyWhen(service, list, SelectedS3(types));
  }
}
