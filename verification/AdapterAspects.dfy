/** What a list of options makes of one aspect of an adapter: the last option
    that writes it decides. */
module AdapterAspects {
  import opened Wrappers
  import opened Objects
  import opened Components
  import opened AdapterBuilder
  import opened AdapterOptions

  datatype Aspect = OfLabel(key: string) | OfPodLabel(key: string) | OfSelector(key: string) | OfAccount

  function At(m: StringMap, k: string): Option<string>
  {
    if k in m then Some(m[k]) else None
  }

  function Or(a: Option<string>, b: Option<string>): Option<string>
  {
    if a.Some? then a else b
  }

  function Reads(a: Adapter, x: Aspect): Option<string>
  {
    match x
    case OfLabel(k) => At(a.meta.labels, k)
    case OfPodLabel(k) => At(a.template.labels, k)
    case OfSelector(k) => At(a.selector, k)
    case OfAccount => Some(a.template.serviceAccountName)
  }

  function Writes(o: ObjectOption, x: Aspect): Option<string>
  {
    match x
    case OfLabel(k) => if o.Label? && o.key == k then Some(o.value) else None
    case OfPodLabel(k) => if (o.PodLabel? || o.Selector?) && o.key == k then Some(o.value) else None
    case OfSelector(k) => if o.Selector? && o.key == k then Some(o.value) else None
    case OfAccount => if o.AccountName? then Some(o.name) else None
  }

  function LastWrite(options: seq<ObjectOption>, x: Aspect): Option<string>
  {
    if options == [] then None
    else Or(Writes(options[|options| - 1], x), LastWrite(options[..|options| - 1], x))
  }

  /** The visibility label is set and deleted by options of its own. */
  predicate IsPlain(x: Aspect)
  {
    x.OfLabel? ==> x.key != Semantic.VISIBILITY_LABEL
  }

  lemma OneWrite(a: Adapter, o: ObjectOption, x: Aspect)
    requires IsPlain(x)
    ensures Reads(ApplyOption(a, o), x) == Or(Writes(o, x), Reads(a, x))
  {
  }

  /** An aspect of the built object is what was last written to it. */
  lemma {:induction false} LastWriteDecides(a: Adapter, options: seq<ObjectOption>, x: Aspect)
    requires IsPlain(x)
    ensures Reads(Fold(a, options), x) == Or(LastWrite(options, x), Reads(a, x))
    decreases |options|
  {
    if options != [] {
      var init, o := options[..|options| - 1], options[|options| - 1];
      LastWriteDecides(a, init, x);
      FoldAppend(a, init, [o]);
      FoldOne(Fold(a, init), o);
      assert options == init + [o];
      OneWrite(Fold(a, init), o, x);
    }
  }

  lemma LastWriteSnoc(init: seq<ObjectOption>, o: ObjectOption, x: Aspect)
    ensures LastWrite(init + [o], x) == Or(Writes(o, x), LastWrite(init, x))
  {
    assert (init + [o])[..|init|] == init;
  }

  lemma {:induction false} LastWriteAppend(first: seq<ObjectOption>, second: seq<ObjectOption>, x: Aspect)
    ensures LastWrite(first + second, x) == Or(LastWrite(second, x), LastWrite(first, x))
    decreases |second|
  {
    if second == [] {
      assert first + second == first;
    } else {
      var init, o := second[..|second| - 1], second[|second| - 1];
      LastWriteAppend(first, init, x);
      assert first + second == (first + init) + [o];
      LastWriteSnoc(first + init, o, x);
    }
  }

  lemma {:induction false} NoWrites(options: seq<ObjectOption>, x: Aspect)
    requires forall o :: o in options ==> Writes(o, x).None?
    ensures LastWrite(options, x).None?
  {
    if options != [] {
      var init, o := options[..|options| - 1], options[|options| - 1];
      NoWrites(init, x);
      assert o in options;
    }
  }

  lemma LastOfOne(o: ObjectOption, x: Aspect)
    ensures LastWrite([o], x) == Writes(o, x)
  {
    assert [o][..0] == [];
  }

  lemma LastOfTwo(o: ObjectOption, p: ObjectOption, x: Aspect)
    ensures LastWrite([o, p], x) == Or(Writes(p, x), Writes(o, x))
  {
    LastOfOne(o, x);
    LastWriteSnoc([o], p, x);
    assert [o, p] == [o] + [p];
  }

  lemma {:induction false} OwnersAreKept(a: Adapter, options: seq<ObjectOption>)
    requires forall o :: o in options ==> !o.Controller?
    ensures Fold(a, options).meta.owners == a.meta.owners
    decreases |options|
  {
    if options != [] {
      assert options[0] in options;
      OwnersAreKept(ApplyOption(a, options[0]), options[1..]);
    }
  }

  predicate SameIdentity(a: Adapter, b: Adapter)
  {
    b.backend == a.backend && b.meta.name == a.meta.name && b.meta.uid == a.meta.uid && b.meta.version == a.meta.version
  }

  lemma {:induction false} IdentityIsKept(a: Adapter, options: seq<ObjectOption>)
    ensures SameIdentity(a, Fold(a, options))
    decreases |options|
  {
    if options != [] {
      IdentityIsKept(ApplyOption(a, options[0]), options[1..]);
    }
  }

  // ------------------------------------------------------------- label keys

  lemma CommonLabelKeys(kind: string)
    ensures CommonLabels(kind).Keys == {APP_NAME_LABEL, APP_COMPONENT_LABEL, APP_PART_OF_LABEL, APP_MANAGED_BY_LABEL}
  {
  }

  /** A label of the family that a lookup asks for. */
  predicate IsAppLabel(k: string)
  {
    |k| >= 1 && k[0] == 'a'
  }

  lemma AppLabelsAreOwnFamily()
    ensures IsAppLabel(APP_NAME_LABEL) && IsAppLabel(APP_INSTANCE_LABEL) && IsAppLabel(APP_COMPONENT_LABEL)
            && IsAppLabel(APP_PART_OF_LABEL) && IsAppLabel(APP_MANAGED_BY_LABEL)
    ensures !IsAppLabel(BRIDGE_LABEL) && !IsAppLabel(FLOW_LABEL) && !IsAppLabel(Semantic.VISIBILITY_LABEL)
  {
  }

  /** Aspects that the propagated labels and the visibility do not touch. */
  predicate IsApp(x: Aspect)
  {
    x.OfAccount? || x.OfSelector? || IsAppLabel(x.key)
  }

  // ------------------------------------------------------------- the blocks

  function SelectedLabels(kind: string): StringMap
  {
    map[APP_NAME_LABEL := ComponentName(kind), APP_COMPONENT_LABEL := COMPONENT_ADAPTER]
  }

  /** What the fixed options make of each aspect. */
  function FixedValue(backend: Backend, rcl: Instance, x: Aspect): Option<string>
  {
    match x
    case OfLabel(k) => At(CommonLabels(rcl.kind), k)
    case OfPodLabel(k) => At(CommonLabels(rcl.kind), k)
    case OfSelector(k) => if backend.Deployment? then At(SelectedLabels(rcl.kind), k) else None
    case OfAccount => Some(DesiredAccount(rcl, []).meta.name)
  }

  lemma NameWrites(kind: string, x: Aspect)
    ensures LastWrite(NameOptions(kind), x) == if x.OfLabel? then At(CommonLabels(kind), x.key) else None
  {
    var o := NameOptions(kind);
    assert o == [o[0], o[1]] + [o[2], o[3]];
    LastWriteAppend([o[0], o[1]], [o[2], o[3]], x);
    LastOfTwo(o[0], o[1], x);
    LastOfTwo(o[2], o[3], x);
    LabelKeysDiffer();
  }

  lemma SelectionWrites(backend: Backend, kind: string, x: Aspect)
    ensures LastWrite(SelectionOptions(backend, kind), x)
            == if x.OfPodLabel? || (x.OfSelector? && backend.Deployment?) then At(SelectedLabels(kind), x.key) else None
  {
    var o := SelectionOptions(backend, kind);
    assert o == [o[0], o[1]];
    LastOfTwo(o[0], o[1], x);
    LabelKeysDiffer();
  }

  function PartLabels(): StringMap
  {
    map[APP_PART_OF_LABEL := PART_OF, APP_MANAGED_BY_LABEL := MANAGED_BY]
  }

  lemma PartWrites(x: Aspect)
    ensures LastWrite(PartOptions(), x) == if x.OfPodLabel? then At(PartLabels(), x.key) else None
  {
    var o := PartOptions();
    assert o == [o[0], o[1]];
    LastOfTwo(o[0], o[1], x);
    LabelKeysDiffer();
  }

  lemma SelectedAndPart(kind: string, k: string)
    ensures Or(At(PartLabels(), k), At(SelectedLabels(kind), k)) == At(CommonLabels(kind), k)
  {
    LabelKeysDiffer();
  }

  lemma FirstWrites(backend: Backend, x: Aspect)
    ensures LastWrite(FirstOption(backend), x).None?
  {
    NoWrites(FirstOption(backend), x);
  }

  lemma RuntimeWrites(backend: Backend, rcl: Instance, x: Aspect)
    ensures LastWrite(RuntimeOptions(backend, rcl), x).None?
  {
    NoWrites(RuntimeOptions(backend, rcl), x);
  }

  lemma AccountWrites(rcl: Instance, x: Aspect)
    ensures LastWrite(AccountNameOption(rcl), x) == if x.OfAccount? then Some(DesiredAccount(rcl, []).meta.name) else None
  {
    LastOfOne(AccountNameOption(rcl)[0], x);
    assert AccountNameOption(rcl) == [AccountNameOption(rcl)[0]];
  }

  lemma SixBlocks(f: seq<ObjectOption>, n: seq<ObjectOption>, s: seq<ObjectOption>, p: seq<ObjectOption>,
                  c: seq<ObjectOption>, r: seq<ObjectOption>, x: Aspect)
    ensures LastWrite(f + n + s + p + c + r, x)
            == Or(LastWrite(r, x), Or(LastWrite(c, x), Or(LastWrite(p, x), Or(LastWrite(s, x),
                 Or(LastWrite(n, x), LastWrite(f, x))))))
  {
    LastWriteAppend(f + n + s + p + c, r, x);
    LastWriteAppend(f + n + s + p, c, x);
    LastWriteAppend(f + n + s, p, x);
    LastWriteAppend(f + n, s, x);
    LastWriteAppend(f, n, x);
  }

  lemma FixedWrites(backend: Backend, rcl: Instance, x: Aspect)
    ensures LastWrite(FixedOptions(backend, rcl), x) == FixedValue(backend, rcl, x)
  {
    SixBlocks(FirstOption(backend), NameOptions(rcl.kind), SelectionOptions(backend, rcl.kind), PartOptions(),
              AccountNameOption(rcl), RuntimeOptions(backend, rcl), x);
    FirstWrites(backend, x);
    NameWrites(rcl.kind, x);
    SelectionWrites(backend, rcl.kind, x);
    PartWrites(x);
    AccountWrites(rcl, x);
    RuntimeWrites(backend, rcl, x);
    if x.OfPodLabel? {
      SelectedAndPart(rcl.kind, x.key);
    }
  }

  lemma {:induction false} PropagationWrites(parent: StringMap, keys: seq<string>, x: Aspect)
    requires IsApp(x) && forall k :: k in keys ==> !IsAppLabel(k)
    ensures LastWrite(PropagationOptions(parent, keys), x).None?
  {
    if keys != [] {
      var k := keys[|keys| - 1];
      assert k in keys;
      PropagationWrites(parent, keys[..|keys| - 1], x);
      if k in parent {
        LastWriteAppend(PropagationOptions(parent, keys[..|keys| - 1]), [Label(k, parent[k]), PodLabel(k, parent[k])], x);
        LastOfTwo(Label(k, parent[k]), PodLabel(k, parent[k]), x);
      } else {
        assert PropagationOptions(parent, keys) == PropagationOptions(parent, keys[..|keys| - 1]);
      }
    }
  }

  lemma CommonWrites(backend: Backend, rcl: Instance, x: Aspect)
    requires IsApp(x)
    ensures LastWrite(CommonOptions(backend, rcl), x) == FixedValue(backend, rcl, x)
  {
    LastWriteAppend(FixedOptions(backend, rcl), PropagationOptions(rcl.labels, PROPAGATED_LABELS), x);
    FixedWrites(backend, rcl, x);
    AppLabelsAreOwnFamily();
    PropagationWrites(rcl.labels, PROPAGATED_LABELS, x);
  }
}
