/** Walking up the controllers of an object to its outermost ancestor. */
module Ancestry {
  import opened Wrappers
  import opened Objects
  import opened Text

  datatype Object = Object(name: string, uid: nat, owners: seq<OwnerReference>)

  /** A group, version and kind; the group and version in their joined form. */
  datatype TypeMeta = TypeMeta(groupVersion: string, kind: string)

  const REPLICA_SET := "ReplicaSet"
  const DEPLOYMENT := "Deployment"

  /** What the listers of one namespace hold. */
  datatype Listers = Listers(replicaSets: map<string, Object>, deployments: map<string, Object>)

  /** How `schema.FromAPIVersionAndKind` reads an API version, written out again;
      one that has several slashes is dropped. */
  function GroupVersionOf(apiVersion: string): string
  {
    var parts := Split(apiVersion, '/');
    if |parts| == 1 then apiVersion
    else if |parts| == 2 then (if parts[0] == "" then parts[1] else apiVersion)
    else ""
  }

  predicate IsWalked(kind: string)
  {
    kind == REPLICA_SET || kind == DEPLOYMENT
  }

  function Get(l: Listers, r: OwnerReference): Option<Object>
  {
    if r.kind == REPLICA_SET && r.name in l.replicaSets then Some(l.replicaSets[r.name])
    else if r.kind == DEPLOYMENT && r.name in l.deployments then Some(l.deployments[r.name])
    else None
  }

  function NewControllerRef(o: Object, t: TypeMeta): OwnerReference
  {
    OwnerReference(t.groupVersion, t.kind, o.name, o.uid, Some(true))
  }

  /** No object controls itself over any number of links: there is a height for
      every listed object that its controller stays above. */
  ghost predicate Acyclic(l: Listers, height: map<ObjectKey, nat>)
  {
    && (forall n :: n in l.replicaSets ==> Climbs(l, height, ObjectKey(REPLICA_SET, n), l.replicaSets[n]))
    && (forall n :: n in l.deployments ==> Climbs(l, height, ObjectKey(DEPLOYMENT, n), l.deployments[n]))
  }

  ghost predicate Climbs(l: Listers, height: map<ObjectKey, nat>, k: ObjectKey, o: Object)
  {
    k in height && IsBelow(l, height, o, height[k])
  }

  ghost predicate IsBelow(l: Listers, height: map<ObjectKey, nat>, o: Object, h: nat)
  {
    var c := ControllerOf(o.owners);
    c.Some? && Get(l, c.value).Some? ==> OwnerKey(c.value) in height && height[OwnerKey(c.value)] < h
  }

  lemma FoundIsBelow(l: Listers, height: map<ObjectKey, nat>, r: OwnerReference)
    requires Acyclic(l, height) && Get(l, r).Some?
    ensures OwnerKey(r) in height && IsBelow(l, height, Get(l, r).value, height[OwnerKey(r)])
  {
    if r.kind == REPLICA_SET && r.name in l.replicaSets {
      assert Climbs(l, height, ObjectKey(REPLICA_SET, r.name), l.replicaSets[r.name]);
    } else {
      assert Climbs(l, height, ObjectKey(DEPLOYMENT, r.name), l.deployments[r.name]);
    }
  }

  /** `resolveOutermostAncestorControllerRef`; no type stands for the empty one
      of the first call. */
  function Resolve(l: Listers, o: Object, typ: Option<TypeMeta>, ghost height: map<ObjectKey, nat>, ghost h: nat)
    : (r: Option<OwnerReference>)
    requires Acyclic(l, height) && IsBelow(l, height, o, h)
    ensures r.Some? ==> r.value.controller == Some(true)
    decreases h
  {
    var c := ControllerOf(o.owners);
    if c.None? then (if typ.None? then None else Some(NewControllerRef(o, typ.value)))
    else if !IsWalked(c.value.kind) then c
    else
      var found := Get(l, c.value);
      if found.None? then None
      else
        FoundIsBelow(l, height, c.value);
        Resolve(l, found.value, Some(TypeMeta(GroupVersionOf(c.value.apiVersion), c.value.kind)), height,
                height[OwnerKey(c.value)])
  }

  /** The kinds of controllers that the walk goes on from. */
  lemma WalkedKinds(kind: string)
    ensures IsWalked(kind) <==> kind in {"ReplicaSet", "Deployment"}
  {
  }

  /** A core type has no group, and a text with several slashes tells nothing. */
  lemma GroupVersionsAre(group: string, version: string, more: string)
    requires '/' !in group && '/' !in version
    ensures GroupVersionOf(version) == version && GroupVersionOf("/" + version) == version
    ensures group != "" ==> GroupVersionOf(group + "/" + version) == group + "/" + version
    ensures GroupVersionOf(group + "/" + version + "/" + more) == ""
  {
    SplitFree(version, '/');
    SplitAfterFree("", version, '/');
    assert "/" + version == "" + ['/'] + version;
    SplitAfterFree(group, version, '/');
    assert group + "/" + version == group + ['/'] + version;
    SplitAfterFree(version, more, '/');
    SplitAfterFree(group, version + ['/'] + more, '/');
    assert group + "/" + version + "/" + more == group + ['/'] + (version + ['/'] + more);
  }

  // ---------------------------------------------------------- chains of control

  /** Each object but the last is controlled by the next, through a reference
      whose kind is walked. */
  ghost predicate IsChain(l: Listers, objects: seq<Object>, refs: seq<OwnerReference>)
  {
    && |objects| == |refs| + 1
    && forall i :: 0 <= i < |refs| ==>
         ControllerOf(objects[i].owners) == Some(refs[i]) && IsWalked(refs[i].kind)
         && Get(l, refs[i]) == Some(objects[i + 1])
  }

  /** The chain cannot be continued. */
  predicate IsOutermost(l: Listers, o: Object)
  {
    var c := ControllerOf(o.owners);
    c.None? || !IsWalked(c.value.kind) || Get(l, c.value).None?
  }

  /** What a chain that cannot be continued says about its first object: the
      last object's own controller, when its kind is not walked; no answer when
      that controller is missing, or when there is no controller at all; else a
      reference to the last object, typed as it was referred to. */
  function Answer(last: Object, refs: seq<OwnerReference>): Option<OwnerReference>
  {
    var c := ControllerOf(last.owners);
    if c.Some? then (if IsWalked(c.value.kind) then None else c)
    else if refs == [] then None
    else
      var r := refs[|refs| - 1];
      Some(NewControllerRef(last, TypeMeta(GroupVersionOf(r.apiVersion), r.kind)))
  }

  function TypeFrom(refs: seq<OwnerReference>): Option<TypeMeta>
  {
    if refs == [] then None
    else Some(TypeMeta(GroupVersionOf(refs[|refs| - 1].apiVersion), refs[|refs| - 1].kind))
  }

  /** From any point of a chain the walk ends in the same answer. */
  lemma {:induction false} WalkFollowsChain(l: Listers, objects: seq<Object>, refs: seq<OwnerReference>, i: nat,
                                            height: map<ObjectKey, nat>, h: nat)
    requires IsChain(l, objects, refs) && i <= |refs| && IsOutermost(l, objects[|refs|])
    requires Acyclic(l, height) && IsBelow(l, height, objects[i], h)
    ensures Resolve(l, objects[i], TypeFrom(refs[..i]), height, h) == Answer(objects[|refs|], refs)
    decreases |refs| - i
  {
    if i < |refs| {
      assert Get(l, refs[i]) == Some(objects[i + 1]);
      FoundIsBelow(l, height, refs[i]);
      WalkFollowsChain(l, objects, refs, i + 1, height, height[OwnerKey(refs[i])]);
      assert refs[..i + 1][i] == refs[i];
    } else {
      assert refs[..i] == refs;
    }
  }

  /** Every object has a chain that cannot be continued. */
  lemma {:induction false} ChainExists(l: Listers, o: Object, height: map<ObjectKey, nat>, h: nat)
    returns (objects: seq<Object>, refs: seq<OwnerReference>)
    requires Acyclic(l, height) && IsBelow(l, height, o, h)
    ensures IsChain(l, objects, refs) && objects[0] == o && IsOutermost(l, objects[|refs|])
    decreases h
  {
    if IsOutermost(l, o) {
      objects, refs := [o], [];
    } else {
      var c := ControllerOf(o.owners).value;
      FoundIsBelow(l, height, c);
      var os, rs := ChainExists(l, Get(l, c).value, height, height[OwnerKey(c)]);
      objects, refs := [o] + os, [c] + rs;
      forall i | 0 <= i < |refs|
        ensures ControllerOf(objects[i].owners) == Some(refs[i]) && IsWalked(refs[i].kind)
                && Get(l, refs[i]) == Some(objects[i + 1])
      {
        assert i > 0 ==> objects[i] == os[i - 1] && refs[i] == rs[i - 1];
      }
    }
  }

  function Ancestor(l: Listers, o: Object, ghost height: map<ObjectKey, nat>, ghost h: nat): Option<OwnerReference>
    requires Acyclic(l, height) && IsBelow(l, height, o, h)
  {
    Resolve(l, o, None, height, h)
  }

  /** The walk terminates and answers what the chain of controllers says: `r` is
      the result if and only if some chain from the object that cannot be
      continued has the answer `r`. */
  lemma AncestorIsAnswerOfChain(l: Listers, o: Object, height: map<ObjectKey, nat>, h: nat, r: Option<OwnerReference>)
    requires Acyclic(l, height) && IsBelow(l, height, o, h)
    ensures Ancestor(l, o, height, h) == r <==>
            exists objects, refs :: IsChain(l, objects, refs) && objects[0] == o && IsOutermost(l, objects[|refs|])
                                    && Answer(objects[|refs|], refs) == r
  {
    forall objects: seq<Object>, refs | IsChain(l, objects, refs) && objects[0] == o && IsOutermost(l, objects[|refs|])
      ensures Ancestor(l, o, height, h) == Answer(objects[|refs|], refs)
    {
      WalkFollowsChain(l, objects, refs, 0, height, h);
      assert refs[..0] == [];
    }
    var objects, refs := ChainExists(l, o, height, h);
  }

  // -------------------------------------------------------- filter and handler

  /** hasOutermostAncestorOfKind. */
  predicate HasAncestorOfKind(l: Listers, o: Object, typ: TypeMeta, ghost height: map<ObjectKey, nat>, ghost h: nat)
    requires Acyclic(l, height) && IsBelow(l, height, o, h)
  {
    var r := Ancestor(l, o, height, h);
    r.Some? && r.value.apiVersion == typ.groupVersion && r.value.kind == typ.kind
  }

  /** podOutermostAncestorHandlerFn: what the wrapped handler is given, an object
      that has the ancestor for its owner. */
  function HandedOn(l: Listers, o: Object, ghost height: map<ObjectKey, nat>, ghost h: nat): Option<Object>
    requires Acyclic(l, height) && IsBelow(l, height, o, h)
  {
    var r := Ancestor(l, o, height, h);
    if r.None? then None else Some(Object("", 0, [r.value]))
  }

  /** What enqueueing the controller of an object enqueues. */
  function Enqueued(o: Object): Option<string>
  {
    var c := ControllerOf(o.owners);
    if c.None? then None else Some(c.value.name)
  }

  /** Every Pod that passes the filter makes the handler enqueue the very
      ancestor that the filter matched. */
  lemma HandlerEnqueuesWhatFilterMatched(l: Listers, pod: Object, typ: TypeMeta, height: map<ObjectKey, nat>, h: nat)
    requires Acyclic(l, height) && IsBelow(l, height, pod, h)
    ensures HasAncestorOfKind(l, pod, typ, height, h) <==>
            exists r :: Ancestor(l, pod, height, h) == Some(r) && r.kind == typ.kind && r.apiVersion == typ.groupVersion
    ensures HandedOn(l, pod, height, h).Some? <==> Ancestor(l, pod, height, h).Some?
    ensures HasAncestorOfKind(l, pod, typ, height, h) ==>
              var r, o := Ancestor(l, pod, height, h).value, HandedOn(l, pod, height, h).value;
              ControllerOf(o.owners) == Some(r) && Enqueued(o) == Some(r.name)
  {
  }

  /** The usual chain: the Pod of a ReplicaSet of a Deployment. What controls the
      Deployment is the answer; when nothing does, the Deployment itself is. */
  lemma PodOfDeployment(l: Listers, pod: Object, rs: OwnerReference, d: OwnerReference,
                        height: map<ObjectKey, nat>, h: nat)
    requires Acyclic(l, height) && IsBelow(l, height, pod, h)
    requires ControllerOf(pod.owners) == Some(rs) && rs.kind == "ReplicaSet" && rs.name in l.replicaSets
    requires ControllerOf(l.replicaSets[rs.name].owners) == Some(d) && d.kind == "Deployment" && d.name in l.deployments
    ensures var deployment := l.deployments[d.name];
            var c := ControllerOf(deployment.owners);
            && (c.Some? && c.value.kind !in {"ReplicaSet", "Deployment"} ==> Ancestor(l, pod, height, h) == c)
            && (c.None? ==> Ancestor(l, pod, height, h)
                            == Some(OwnerReference(GroupVersionOf(d.apiVersion), "Deployment", deployment.name,
                                                   deployment.uid, Some(true))))
  {
    var deployment := l.deployments[d.name];
    var objects, refs := [pod, l.replicaSets[rs.name], deployment], [rs, d];
    if IsOutermost(l, deployment) {
      WalkFollowsChain(l, objects, refs, 0, height, h);
      assert refs[..0] == [];
    }
  }

  /** A Pod that nothing controls has no ancestor, nor has one whose controller
      is not there. */
  lemma PodWithoutController(l: Listers, pod: Object, height: map<ObjectKey, nat>, h: nat)
    requires Acyclic(l, height) && IsBelow(l, height, pod, h)
    ensures ControllerOf(pod.owners).None? ==> Ancestor(l, pod, height, h).None?
    ensures var c := ControllerOf(pod.owners);
            c.Some? && ((c.value.kind == "ReplicaSet" && c.value.name !in l.replicaSets)
                        || (c.value.kind == "Deployment" && c.value.name !in l.deployments)) ==>
              Ancestor(l, pod, height, h).None?
  {
  }

  /** Any two heights give the same answer: it depends on the objects only. */
  lemma AncestorIgnoresHeights(l: Listers, o: Object, height: map<ObjectKey, nat>, h: nat,
                               height': map<ObjectKey, nat>, h': nat)
    requires Acyclic(l, height) && IsBelow(l, height, o, h) && Acyclic(l, height') && IsBelow(l, height', o, h')
    ensures Ancestor(l, o, height, h) == Ancestor(l, o, height', h')
  {
    var objects, refs := ChainExists(l, o, height, h);
    WalkFollowsChain(l, objects, refs, 0, height, h);
    WalkFollowsChain(l, objects, refs, 0, height', h');
    assert refs[..0] == [];
  }
}
