/** Azure resource IDs: the text between the JSON quotes, parsed by
    `UnmarshalJSON` and printed by `MarshalJSON`. */
module AzureResourceId {
  import opened Wrappers
  import opened Text

  datatype ResourceId = ResourceId(
    subscriptionId: string,
    resourceGroup: string,
    resourceProvider: string,
    namespace: string,
    resourceType: string,
    resourceName: string,
    subResourceType: string,
    subResourceName: string)

  datatype Error = EmptyAttributes | WrongFormat(input: string)

  const SUBSCRIPTION_ELEMENTS := 3
  const RESOURCE_GROUP_ELEMENTS := 5
  const RESOURCE_ELEMENTS := 9
  const SUB_RESOURCE_ELEMENTS := 11
  const NAMESPACED_SUB_RESOURCE_ELEMENTS := 13

  predicate IsNamespaces(segment: string)
  {
    ToLower(segment) == "namespaces"
  }

  predicate HasResource(v: ResourceId)
  {
    v.resourceProvider != "" || v.resourceType != "" || v.resourceName != ""
  }

  predicate HasSubResource(v: ResourceId)
  {
    v.subResourceType != "" || v.subResourceName != ""
  }

  /** The resource IDs that survive a round trip. */
  ghost predicate WellFormed(v: ResourceId)
  {
    && AllFree([v.subscriptionId, v.resourceGroup, v.resourceProvider, v.namespace,
                v.resourceType, v.resourceName, v.subResourceType, v.subResourceName], '/')
    && v.subscriptionId != ""
    && (HasResource(v) ==>
          v.resourceGroup != "" && v.resourceProvider != "" && v.resourceType != "" && v.resourceName != "")
    && (v.namespace != "" ==> HasResource(v))
    && (HasSubResource(v) ==> HasResource(v) && v.subResourceType != "" && v.subResourceName != "")
    && (HasSubResource(v) && v.namespace == "" ==> !IsNamespaces(v.resourceType))
  }

  // ---------------------------------------------------------------- printing

  predicate Printable(v: ResourceId)
  {
    && v.subscriptionId != ""
    && (HasResource(v) ==>
          v.resourceGroup != "" && v.resourceProvider != "" && v.resourceType != "" && v.resourceName != "")
    && (HasSubResource(v) ==> v.subResourceType != "" && v.subResourceName != "")
  }

  /** The path segments a resource ID stands for, independent of any buffer. */
  function Segments(v: ResourceId): (segments: seq<string>)
    ensures |segments| >= 3
  {
    ["", "subscriptions", v.subscriptionId]
    + (if v.resourceGroup != "" then ["resourceGroups", v.resourceGroup] else [])
    + (if HasResource(v) then
         ["providers", v.resourceProvider]
         + (if v.namespace != "" then ["namespaces", v.namespace] else [])
         + [v.resourceType, v.resourceName]
       else [])
    + (if HasSubResource(v) then [v.subResourceType, v.subResourceName] else [])
  }

  function Print(v: ResourceId): Result<string, Error>
  {
    if Printable(v) then Success(Join(Segments(v), '/')) else Failure(EmptyAttributes)
  }

  /** What a resource ID looks like when it is written out. */
  function Written(v: ResourceId): string
  {
    var a := "/subscriptions/" + v.subscriptionId;
    var b := if v.resourceGroup == "" then a else a + "/resourceGroups/" + v.resourceGroup;
    var c := if v.resourceProvider == "" then b else b + "/providers/" + v.resourceProvider;
    var d := if v.resourceProvider == "" || v.namespace == "" then c else c + "/namespaces/" + v.namespace;
    var e := if v.resourceProvider == "" then d else d + "/" + v.resourceType + "/" + v.resourceName;
    if v.subResourceType == "" then e else e + "/" + v.subResourceType + "/" + v.subResourceName
  }

  lemma KeywordStep(parts: seq<string>, text: string, keyword: string, slashed: string, x: string, present: bool)
    requires |parts| >= 1 && Join(parts, '/') == text && slashed == "/" + keyword + "/"
    ensures Join(parts + (if present then [keyword, x] else []), '/') == if present then text + slashed + x else text
  {
    if present {
      JoinKeyword(parts, keyword, x, slashed);
    } else {
      assert parts + [] == parts;
    }
  }

  lemma PairStep(parts: seq<string>, text: string, a: string, b: string, present: bool)
    requires |parts| >= 1 && Join(parts, '/') == text
    ensures Join(parts + (if present then [a, b] else []), '/') == if present then text + "/" + a + "/" + b else text
  {
    if present {
      JoinPair(parts, a, b);
    } else {
      assert parts + [] == parts;
    }
  }

  lemma FiveParts(v: ResourceId, start: seq<string>, group: seq<string>, provider: seq<string>, namespace: seq<string>,
                  resource: seq<string>, sub: seq<string>)
    requires start == ["", "subscriptions", v.subscriptionId]
    requires group == if v.resourceGroup != "" then ["resourceGroups", v.resourceGroup] else []
    requires provider == if HasResource(v) then ["providers", v.resourceProvider] else []
    requires namespace == if HasResource(v) && v.namespace != "" then ["namespaces", v.namespace] else []
    requires resource == if HasResource(v) then [v.resourceType, v.resourceName] else []
    requires sub == if HasSubResource(v) then [v.subResourceType, v.subResourceName] else []
    ensures Segments(v) == start + group + provider + namespace + resource + sub
  {
  }

  /** The printed text, and when there is none: without a subscription, with a
      part of a resource, or with half of a subresource. */
  lemma PrintsAsWritten(v: ResourceId)
    ensures Print(v).Success? ==> Print(v).value == Written(v)
    ensures Print(v).Failure? <==>
              || v.subscriptionId == ""
              || (!(v.resourceProvider == v.resourceType == v.resourceName == "")
                  && (v.resourceGroup == "" || v.resourceProvider == "" || v.resourceType == "" || v.resourceName == ""))
              || ((v.subResourceType == "") != (v.subResourceName == ""))
    ensures Print(v).Failure? ==> Print(v).error == EmptyAttributes
  {
    if Printable(v) {
      PartsAreWritten(v);
    }
  }

  lemma PartsAreWritten(v: ResourceId)
    requires Printable(v)
    ensures Join(Segments(v), '/') == Written(v)
  {
    var res, ns := HasResource(v), HasResource(v) && v.namespace != "";
    var x := ["", "subscriptions", v.subscriptionId];
    var a := "/subscriptions/" + v.subscriptionId;
    SubscriptionText(v.subscriptionId);
    var group := if v.resourceGroup != "" then ["resourceGroups", v.resourceGroup] else [];
    KeywordStep(x, a, "resourceGroups", "/resourceGroups/", v.resourceGroup, v.resourceGroup != "");
    var b := if v.resourceGroup == "" then a else a + "/resourceGroups/" + v.resourceGroup;
    var provider := if res then ["providers", v.resourceProvider] else [];
    KeywordStep(x + group, b, "providers", "/providers/", v.resourceProvider, res);
    var c := if v.resourceProvider == "" then b else b + "/providers/" + v.resourceProvider;
    var namespace := if ns then ["namespaces", v.namespace] else [];
    KeywordStep(x + group + provider, c, "namespaces", "/namespaces/", v.namespace, ns);
    var d := if v.resourceProvider == "" || v.namespace == "" then c else c + "/namespaces/" + v.namespace;
    var resource := if res then [v.resourceType, v.resourceName] else [];
    PairStep(x + group + provider + namespace, d, v.resourceType, v.resourceName, res);
    var e := if v.resourceProvider == "" then d else d + "/" + v.resourceType + "/" + v.resourceName;
    PairStep(x + group + provider + namespace + resource, e, v.subResourceType, v.subResourceName, HasSubResource(v));
    FiveParts(v, x, group, provider, namespace, resource,
              if HasSubResource(v) then [v.subResourceType, v.subResourceName] else []);
  }

  // ----------------------------------------------------------------- parsing

  /** The value that each accepted shape of a segment list denotes. */
  function ParseSegments(x: seq<string>, input: string): Result<ResourceId, Error>
  {
    var n := |x|;
    if n != 3 && n != 5 && n != 9 && n != 11 && n != 13 then Failure(WrongFormat(input))
    else if x[2] == "" || (n >= 5 && x[4] == "") || (n >= 9 && (x[6] == "" || x[7] == "" || x[8] == ""))
            || (n >= 11 && (x[9] == "" || x[10] == "")) || (n == 13 && (x[11] == "" || x[12] == ""))
      then Failure(EmptyAttributes)
    else if n == 3 then Success(ResourceId(x[2], "", "", "", "", "", "", ""))
    else if n == 5 then Success(ResourceId(x[2], x[4], "", "", "", "", "", ""))
    else if n == 9 then Success(ResourceId(x[2], x[4], x[6], "", x[7], x[8], "", ""))
    else if IsNamespaces(x[7]) then
      if n == 11 then Success(ResourceId(x[2], x[4], x[6], x[8], x[9], x[10], "", ""))
      else Success(ResourceId(x[2], x[4], x[6], x[8], x[9], x[10], x[11], x[12]))
    else Success(ResourceId(x[2], x[4], x[6], "", x[7], x[8], x[n - 2], x[n - 1]))
  }

  function Parse(text: string): Result<ResourceId, Error>
  {
    ParseSegments(Split(text, '/'), text)
  }

  // ------------------------------------------------------ the source's methods

  /** The receiver of the two JSON methods. */
  class AzureResourceID {
    var subscriptionID: string
    var resourceGroup: string
    var resourceProvider: string
    var namespace: string
    var resourceType: string
    var resourceName: string
    var subResourceType: string
    var subResourceName: string

    function Value(): ResourceId
      reads this
    {
      ResourceId(subscriptionID, resourceGroup, resourceProvider, namespace,
                 resourceType, resourceName, subResourceType, subResourceName)
    }

    /** A rejected text leaves the receiver as it was. */
    method UnmarshalJSON(text: string) returns (err: Option<Error>)
      modifies this
      ensures match Parse(text)
              case Success(v) => err == None && Value() == v
              case Failure(e) => err == Some(e) && Value() == old(Value())
    {
      var sections := Split(text, '/');
      var n := |sections|;
      if n != SUBSCRIPTION_ELEMENTS && n != RESOURCE_GROUP_ELEMENTS && n != RESOURCE_ELEMENTS
         && n != SUB_RESOURCE_ELEMENTS && n != NAMESPACED_SUB_RESOURCE_ELEMENTS {
        return Some(WrongFormat(text));
      }

      var subscription := sections[2];
      if subscription == "" {
        return Some(EmptyAttributes);
      }

      var group := "";
      if n >= RESOURCE_GROUP_ELEMENTS {
        group := sections[4];
        if group == "" {
          return Some(EmptyAttributes);
        }
      }

      var provider, typ, name := "", "", "";
      if n >= RESOURCE_ELEMENTS {
        provider, typ, name := sections[6], sections[7], sections[8];
        if provider == "" || typ == "" || name == "" {
          return Some(EmptyAttributes);
        }
      }

      var ns, subType, subName := "", "", "";
      if n >= SUB_RESOURCE_ELEMENTS {
        if IsNamespaces(typ) {
          ns, typ, name := sections[8], sections[9], sections[10];
          if ns == "" || typ == "" || name == "" {
            return Some(EmptyAttributes);
          }
        } else {
          subType, subName := sections[9], sections[10];
          if subType == "" || subName == "" {
            return Some(EmptyAttributes);
          }
        }
      }

      if n == NAMESPACED_SUB_RESOURCE_ELEMENTS {
        subType, subName := sections[11], sections[12];
        if subType == "" || subName == "" {
          return Some(EmptyAttributes);
        }
      }

      subscriptionID := subscription;
      resourceGroup := group;
      resourceProvider := provider;
      namespace := ns;
      resourceType := typ;
      resourceName := name;
      subResourceType := subType;
      subResourceName := subName;
      return None;
    }

    method MarshalJSON() returns (r: Result<string, Error>)
      ensures r == Print(Value())
      ensures r.Success? ==> r.value == Written(Value())
    {
      PrintsAsWritten(Value());
      if subscriptionID == "" {
        return Failure(EmptyAttributes);
      }
      var b := "/subscriptions/" + subscriptionID;

      if resourceGroup != "" {
        b := b + "/resourceGroups/" + resourceGroup;
      }

      if resourceProvider != "" || resourceType != "" || resourceName != "" {
        if resourceGroup == "" || resourceProvider == "" || resourceType == "" || resourceName == "" {
          return Failure(EmptyAttributes);
        }
        b := b + "/providers/" + resourceProvider;
        if namespace != "" {
          b := b + "/namespaces/" + namespace;
        }
        b := b + "/" + resourceType + "/" + resourceName;
      }

      if subResourceType != "" || subResourceName != "" {
        if subResourceType == "" || subResourceName == "" {
          return Failure(EmptyAttributes);
        }
        b := b + "/" + subResourceType + "/" + subResourceName;
      }
      return Success(b);
    }

    /** The empty string stands for a resource ID that cannot be printed. */
    method String() returns (s: string)
      ensures s == if Print(Value()).Success? then Written(Value()) else ""
    {
      var r := MarshalJSON();
      match r {
        case Success(t) => s := t;
        case Failure(_) => s := "";
      }
    }
  }

  /** Adding two pieces to a join, as the buffer writes them: "/{a}/{b}". */
  lemma JoinPair(parts: seq<string>, a: string, b: string)
    requires |parts| >= 1
    ensures Join(parts + [a, b], '/') == Join(parts, '/') + "/" + a + "/" + b
  {
    JoinSnoc(parts, a, '/');
    JoinSnoc(parts + [a], b, '/');
    assert parts + [a] + [b] == parts + [a, b];
  }

  /** The same with a fixed keyword written together with its two slashes. */
  lemma JoinKeyword(parts: seq<string>, keyword: string, x: string, slashed: string)
    requires |parts| >= 1 && slashed == "/" + keyword + "/"
    ensures Join(parts + [keyword, x], '/') == Join(parts, '/') + slashed + x
  {
    JoinPair(parts, keyword, x);
    Associate(Join(parts, '/'), keyword);
  }

  lemma Associate(j: string, keyword: string)
    ensures j + "/" + keyword + "/" == j + ("/" + keyword + "/")
  {
  }

  lemma SubscriptionText(id: string)
    ensures Join(["", "subscriptions", id], '/') == "/subscriptions/" + id
  {
    JoinKeyword([""], "subscriptions", id, "/subscriptions/");
    assert [""] + ["subscriptions", id] == ["", "subscriptions", id];
    assert "" + "/subscriptions/" == "/subscriptions/";
  }

  // ---------------------------------------------------------------- theorems

  /** A text is rejected by the number of pieces between its slashes, or for an
      empty piece among those that count. */
  lemma RejectsPieces(x: seq<string>)
    requires |x| >= 1 && AllFree(x, '/')
    ensures var r := Parse(Join(x, '/'));
            && (r == Failure(WrongFormat(Join(x, '/'))) <==> |x| !in {3, 5, 9, 11, 13})
            && (r == Failure(EmptyAttributes) <==>
                  |x| in {3, 5, 9, 11, 13}
                  && ("" in x[2..3] || (|x| >= 5 && "" in x[4..5]) || (|x| >= 9 && "" in x[6..])))
  {
    SplitJoin(x, '/');
    if |x| in {3, 5, 9, 11, 13} {
      RejectsSegments(x, Join(x, '/'));
    }
  }

  lemma RejectsSegments(x: seq<string>, text: string)
    requires |x| in {3, 5, 9, 11, 13}
    ensures ParseSegments(x, text) != Failure(WrongFormat(text))
    ensures ParseSegments(x, text) == Failure(EmptyAttributes) <==>
              "" in x[2..3] || (|x| >= 5 && "" in x[4..5]) || (|x| >= 9 && "" in x[6..])
  {
    assert x[2..3] == [x[2]];
    if |x| >= 5 {
      assert x[4..5] == [x[4]];
    }
    if |x| >= 9 {
      assert x[6..] == [x[6], x[7], x[8]] + x[9..];
    }
    if |x| >= 11 {
      assert x[9..] == [x[9], x[10]] + x[11..];
    }
    if |x| == 13 {
      assert x[11..] == [x[11], x[12]];
    }
  }

  /** What an accepted text is read as; the keywords are not looked at, but for
      "namespaces" in any case. */
  lemma ReadsPieces(x: seq<string>)
    requires |x| >= 1 && AllFree(x, '/') && Parse(Join(x, '/')).Success?
    ensures |x| in {3, 5, 9, 11, 13}
    ensures var n, v := |x|, Parse(Join(x, '/')).value;
            var spaced := n >= 11 && ToLower(x[7]) == "namespaces";
            && v.subscriptionId == x[2] && v.resourceGroup == (if n >= 5 then x[4] else "")
            && v.resourceProvider == (if n >= 9 then x[6] else "") && v.namespace == (if spaced then x[8] else "")
            && v.resourceType == (if spaced then x[9] else if n >= 9 then x[7] else "")
            && v.resourceName == (if spaced then x[10] else if n >= 9 then x[8] else "")
            && v.subResourceType == (if n == 13 then x[11] else if n == 11 && !spaced then x[9] else "")
            && v.subResourceName == (if n == 13 then x[12] else if n == 11 && !spaced then x[10] else "")
  {
    SplitJoin(x, '/');
  }

  /** Whatever text is accepted, the value it denotes is well formed. */
  lemma ParseYieldsWellFormed(text: string)
    requires Parse(text).Success?
    ensures WellFormed(Parse(text).value)
  {
    SplitPiecesAreFree(text, '/');
  }

  lemma WellFormedSegmentsAreFree(v: ResourceId)
    requires WellFormed(v)
    ensures AllFree(Segments(v), '/')
  {
    var all := [v.subscriptionId, v.resourceGroup, v.resourceProvider, v.namespace,
                v.resourceType, v.resourceName, v.subResourceType, v.subResourceName];
    assert all[0] == v.subscriptionId && all[1] == v.resourceGroup && all[2] == v.resourceProvider
        && all[3] == v.namespace && all[4] == v.resourceType && all[5] == v.resourceName
        && all[6] == v.subResourceType && all[7] == v.subResourceName;
  }

  lemma WellFormedRoundTrips(v: ResourceId)
    requires WellFormed(v)
    ensures Print(v).Success? && Parse(Print(v).value) == Success(v)
  {
    WellFormedSegmentsAreFree(v);
    SplitJoin(Segments(v), '/');
    assert IsNamespaces("namespaces");
  }

  /** The exact domain on which printing and parsing are inverse. */
  lemma RoundTripExactlyWhenWellFormed(v: ResourceId)
    ensures (Print(v).Success? && Parse(Print(v).value) == Success(v)) <==> WellFormed(v)
  {
    if WellFormed(v) {
      WellFormedRoundTrips(v);
    } else if Print(v).Success? && Parse(Print(v).value) == Success(v) {
      ParseYieldsWellFormed(Print(v).value);
    }
  }

  /** Every accepted text has a printable normal form with the same meaning,
      whatever its keyword segments say and however "namespaces" is spelled. */
  lemma AcceptedTextHasNormalForm(text: string)
    requires Parse(text).Success?
    ensures var v := Parse(text).value;
            Print(v).Success? && Parse(Print(v).value) == Success(v)
  {
    ParseYieldsWellFormed(text);
    WellFormedRoundTrips(Parse(text).value);
  }

  /** A family that prints but does not reparse: the subresource of a bare
      subscription is read back as a resource group. */
  lemma SubResourceWithoutResourceIsMisread(id: string, t: string, n: string)
    requires id != "" && t != "" && n != "" && AllFree([id, t, n], '/')
    ensures var v := ResourceId(id, "", "", "", "", "", t, n);
            Print(v).Success?
            && Parse(Print(v).value) == Success(ResourceId(id, n, "", "", "", "", "", ""))
  {
    var v := ResourceId(id, "", "", "", "", "", t, n);
    assert [id, t, n][0] == id && [id, t, n][1] == t && [id, t, n][2] == n;
    assert Segments(v) == ["", "subscriptions", id, t, n];
    SplitJoin(Segments(v), '/');
  }
}
