/** Finding the existing adapter of a component instance. */
module AdapterLookup {
  import opened Wrappers
  import opened Objects
  import opened Components
  import Text

  function LookupLabels(rcl: Instance): StringMap
  {
    if rcl.multiTenant then CommonLabels(rcl.kind)
    else CommonLabels(rcl.kind)[APP_INSTANCE_LABEL := rcl.name]
  }

  predicate ControlledBy(a: Adapter, owner: nat)
  {
    var c := ControllerOf(a.meta.owners);
    c.Some? && c.value.uid == owner
  }

  /** The selector and the owner test that an adapter has to pass. */
  predicate Accepts(rcl: Instance, owner: nat, a: Adapter)
  {
    HasLabels(a.meta.labels, LookupLabels(rcl)) && ControlledBy(a, owner)
  }

  predicate HasLabel(a: Adapter, k: string, v: string)
  {
    k in a.meta.labels && a.meta.labels[k] == v
  }

  /** What an adapter has to have to be found. */
  lemma AcceptsExactly(rcl: Instance, owner: nat, a: Adapter)
    ensures Accepts(rcl, owner, a) <==>
            && HasLabel(a, "app.kubernetes.io/name", Text.ToLower(rcl.kind))
            && HasLabel(a, "app.kubernetes.io/component", "adapter")
            && HasLabel(a, "app.kubernetes.io/part-of", "triggermesh")
            && HasLabel(a, "app.kubernetes.io/managed-by", "triggermesh-controller")
            && (!rcl.multiTenant ==> HasLabel(a, "app.kubernetes.io/instance", rcl.name))
            && (exists i :: 0 <= i < |a.meta.owners| && a.meta.owners[i].controller == Some(true)
                            && a.meta.owners[i].uid == owner
                            && forall j :: 0 <= j < i ==> a.meta.owners[j].controller != Some(true))
  {
    LabelKeysDiffer();
    LookupKeysAre(rcl);
  }

  lemma LookupKeysAre(rcl: Instance)
    ensures LookupLabels(rcl).Keys
            == {APP_NAME_LABEL, APP_COMPONENT_LABEL, APP_PART_OF_LABEL, APP_MANAGED_BY_LABEL}
               + (if rcl.multiTenant then {} else {APP_INSTANCE_LABEL})
  {
  }

  /** The first listed adapter that passes; None stands for not found. */
  function Lookup(listed: seq<Adapter>, rcl: Instance, owner: nat): (r: Option<Adapter>)
    ensures r.None? <==> forall a :: a in listed ==> !Accepts(rcl, owner, a)
    ensures r.Some? ==> r.value in listed && Accepts(rcl, owner, r.value)
  {
    if listed == [] then None
    else if Accepts(rcl, owner, listed[0]) then Some(listed[0])
    else Lookup(listed[1..], rcl, owner)
  }

  /** `findAdapter` over what the lister holds. */
  method FindAdapter(listed: seq<Adapter>, rcl: Instance, owner: nat) returns (r: Option<Adapter>)
    ensures r == Lookup(listed, rcl, owner)
    ensures r.Some? ==> exists i :: 0 <= i < |listed| && listed[i] == r.value
                                    && forall j :: 0 <= j < i ==> !Accepts(rcl, owner, listed[j])
  {
    var ls := LookupLabels(rcl);
    for i := 0 to |listed|
      invariant forall j :: 0 <= j < i ==> !Accepts(rcl, owner, listed[j])
      invariant Lookup(listed, rcl, owner) == Lookup(listed[i..], rcl, owner)
    {
      var o := listed[i];
      assert listed[i..][1..] == listed[i + 1..];
      if HasLabels(o.meta.labels, ls) {
        var objOwner := ControllerOf(o.meta.owners);
        if objOwner.Some? && objOwner.value.uid == owner {
          assert o in listed && Accepts(rcl, owner, o);
          return Some(o);
        }
      }
    }
    return None;
  }
}
