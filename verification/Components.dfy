/** Component instances and the names, labels and RBAC objects derived from
    them. */
module Components {
  import opened Wrappers
  import opened Text
  import opened Objects
  import Sorting

  const APP_NAME_LABEL := "app.kubernetes.io/name"
  const APP_INSTANCE_LABEL := "app.kubernetes.io/instance"
  const APP_COMPONENT_LABEL := "app.kubernetes.io/component"
  const APP_PART_OF_LABEL := "app.kubernetes.io/part-of"
  const APP_MANAGED_BY_LABEL := "app.kubernetes.io/managed-by"

  const PART_OF := "triggermesh"
  const MANAGED_BY := "triggermesh-controller"
  const COMPONENT_ADAPTER := "adapter"

  const ROLE_NAME_CONFIG_WATCHER := "triggermesh-config-watcher"
  const ANNOTATION_EKS_IAM_ROLE := "eks.amazonaws.com/role-arn"
  const ANNOTATION_GCP_SA := "iam.gke.io/gcp-service-account"

  datatype EksIam = EksIam(role: Option<string>, serviceAccount: string)

  /** The authentication settings that influence a ServiceAccount. */
  datatype Auth =
    | NoAuth
    | AwsAuth(eksIamRole: Option<string>, iam: Option<EksIam>)
    | GoogleCloudAuth(gcpServiceAccount: Option<string>, kubernetesServiceAccount: Option<string>)

  datatype Resources = Resources(requests: ResourceList, limits: ResourceList)

  datatype AdapterOverrides = AdapterOverrides(
    isPublic: Option<bool>,
    resources: Option<Resources>,
    tolerations: seq<string>,
    nodeSelector: StringMap,
    affinity: Option<string>,
    env: seq<(string, string)>,
    labels: StringMap,
    annotations: StringMap)

  datatype Instance = Instance(
    apiVersion: string,
    kind: string,
    name: string,
    uid: nat,
    labels: StringMap,
    multiTenant: bool,
    auth: Auth,
    overrides: Option<AdapterOverrides>)

  function InstanceKey(i: Instance): ObjectKey
  {
    ObjectKey(i.kind, i.name)
  }

  /** The multi-tenant types do not provide ServiceAccount options. */
  predicate WellTyped(i: Instance)
  {
    i.multiTenant ==> i.auth.NoAuth?
  }

  predicate WantsOwnServiceAccount(i: Instance)
  {
    match i.auth
    case NoAuth => false
    case AwsAuth(role, iam) => role.Some? || iam.Some?
    case GoogleCloudAuth(gsa, ksa) => gsa.Some? || ksa.Some?
  }

  datatype AccountOption = SetAnnotation(key: string, value: string) | SetName(name: string)

  function ServiceAccountOptions(i: Instance): seq<AccountOption>
  {
    match i.auth
    case NoAuth => []
    case AwsAuth(role, iam) =>
      (if role.Some? then [SetAnnotation(ANNOTATION_EKS_IAM_ROLE, role.value)] else [])
      + (if iam.None? then []
         else
           (if iam.value.role.Some? then [SetAnnotation(ANNOTATION_EKS_IAM_ROLE, iam.value.role.value)] else [])
           + (if iam.value.serviceAccount != "" then [SetName(iam.value.serviceAccount)] else []))
    case GoogleCloudAuth(gsa, ksa) =>
      (if gsa.Some? then [SetAnnotation(ANNOTATION_GCP_SA, gsa.value)] else [])
      + (if ksa.Some? then [SetName(ksa.value)] else [])
  }

  // ------------------------------------------------------------ names, labels

  function ComponentName(kind: string): string
  {
    ToLower(kind)
  }

  /** `kmeta.ChildName` for names that are short enough to be concatenated. */
  function ChildName(parent: string, suffix: string): string
  {
    parent + suffix
  }

  function MTAdapterObjectName(kind: string): string
  {
    ComponentName(kind) + "-" + COMPONENT_ADAPTER
  }

  lemma SharedNameText(kind: string)
    ensures MTAdapterObjectName(kind) == ToLower(kind) + "-adapter"
  {
  }

  function DedicatedAccountName(kind: string, name: string): string
  {
    ChildName(ComponentName(kind) + "-i-", name)
  }

  function ServiceAccountName(i: Instance): string
  {
    if WantsOwnServiceAccount(i) then DedicatedAccountName(i.kind, i.name) else MTAdapterObjectName(i.kind)
  }

  function CommonLabels(kind: string): StringMap
  {
    map[APP_NAME_LABEL := ComponentName(kind),
        APP_COMPONENT_LABEL := COMPONENT_ADAPTER,
        APP_PART_OF_LABEL := PART_OF,
        APP_MANAGED_BY_LABEL := MANAGED_BY]
  }

  lemma LabelKeysDiffer()
    ensures APP_NAME_LABEL != APP_COMPONENT_LABEL && APP_NAME_LABEL != APP_PART_OF_LABEL
            && APP_NAME_LABEL != APP_MANAGED_BY_LABEL && APP_NAME_LABEL != APP_INSTANCE_LABEL
            && APP_COMPONENT_LABEL != APP_PART_OF_LABEL && APP_COMPONENT_LABEL != APP_MANAGED_BY_LABEL
            && APP_COMPONENT_LABEL != APP_INSTANCE_LABEL && APP_PART_OF_LABEL != APP_MANAGED_BY_LABEL
            && APP_PART_OF_LABEL != APP_INSTANCE_LABEL && APP_MANAGED_BY_LABEL != APP_INSTANCE_LABEL
  {
    assert |APP_NAME_LABEL| == 22 && |APP_INSTANCE_LABEL| == 26 && |APP_COMPONENT_LABEL| == 27;
    assert |APP_PART_OF_LABEL| == 25 && |APP_MANAGED_BY_LABEL| == 28;
  }

  predicate Managed(sa: ServiceAccount)
  {
    APP_MANAGED_BY_LABEL in sa.meta.labels && sa.meta.labels[APP_MANAGED_BY_LABEL] == MANAGED_BY
  }

  // ------------------------------------------------------------- RBAC objects

  function InstanceRef(i: Instance, controller: bool): OwnerReference
  {
    OwnerReference(i.apiVersion, i.kind, i.name, i.uid, Some(controller))
  }

  function OwnerRefs(owners: seq<Instance>): (refs: seq<OwnerReference>)
    ensures |refs| == |owners|
    ensures forall j :: 0 <= j < |owners| ==> refs[j] == InstanceRef(owners[j], false)
    ensures forall j :: 0 <= j < |owners| ==>
              refs[j] == OwnerReference(owners[j].apiVersion, owners[j].kind, owners[j].name, owners[j].uid, Some(false))
  {
    seq(|owners|, j requires 0 <= j < |owners| => InstanceRef(owners[j], false))
  }

  function ApplyAccountOption(sa: ServiceAccount, o: AccountOption): ServiceAccount
  {
    match o
    case SetAnnotation(k, v) => sa.(meta := sa.meta.(annotations := sa.meta.annotations[k := v]))
    case SetName(n) => sa.(meta := sa.meta.(name := n))
  }

  function ApplyAccountOptions(sa: ServiceAccount, options: seq<AccountOption>): ServiceAccount
    decreases |options|
  {
    if options == [] then sa
    else ApplyAccountOptions(ApplyAccountOption(sa, options[0]), options[1..])
  }

  /** The ServiceAccount that a reconcile of `rcl` wants to exist. */
  function DesiredAccount(rcl: Instance, owners: seq<Instance>): ServiceAccount
  {
    ApplyAccountOptions(
      ServiceAccount(
        ObjectMeta(ServiceAccountName(rcl), 0, 0, CommonLabels(rcl.kind), map[], OwnerRefs(owners)), [], []),
      ServiceAccountOptions(rcl))
  }

  function AccountRef(sa: ServiceAccount): OwnerReference
  {
    OwnerReference("v1", "ServiceAccount", sa.meta.name, sa.meta.uid, Some(true))
  }

  datatype BindingRole = ConfigWatcher | MultiTenantAdapter

  function BindingName(rcl: Instance, accountName: string, role: BindingRole): string
  {
    match role
    case ConfigWatcher => accountName + "-config-watcher"
    case MultiTenantAdapter => MTAdapterObjectName(rcl.kind)
  }

  function DesiredBinding(rcl: Instance, sa: ServiceAccount, role: BindingRole): RoleBinding
  {
    RoleBinding(
      ObjectMeta(BindingName(rcl, sa.meta.name, role), 0, 0, CommonLabels(rcl.kind), map[], [AccountRef(sa)]),
      match role case ConfigWatcher => ROLE_NAME_CONFIG_WATCHER case MultiTenantAdapter => MTAdapterObjectName(rcl.kind),
      sa.meta.name)
  }

  // -------------------------------------------------- owners of the account

  function InsertByName(x: Instance, s: seq<Instance>): (r: seq<Instance>)
  {
    if s == [] || !Sorting.Less(s[0].name, x.name) then [x] + s else [s[0]] + InsertByName(x, s[1..])
  }

  /** The stable sort that makes semantic comparisons more accurate. */
  function SortByName(s: seq<Instance>): (r: seq<Instance>)
  {
    if s == [] then [] else InsertByName(s[0], SortByName(s[1..]))
  }

  lemma {:induction false} InsertByNameKeeps(x: Instance, s: seq<Instance>)
    ensures multiset(InsertByName(x, s)) == multiset(s) + multiset{x}
  {
    if s != [] && Sorting.Less(s[0].name, x.name) {
      InsertByNameKeeps(x, s[1..]);
      assert s == [s[0]] + s[1..];
    }
  }

  lemma {:induction false} SortByNameKeeps(s: seq<Instance>)
    ensures multiset(SortByName(s)) == multiset(s)
  {
    if s != [] {
      SortByNameKeeps(s[1..]);
      InsertByNameKeeps(s[0], SortByName(s[1..]));
      assert s == [s[0]] + s[1..];
    }
  }

  lemma SortByNameSameMembers(s: seq<Instance>)
    ensures forall i: Instance :: i in SortByName(s) <==> i in s
  {
    SortByNameKeeps(s);
    assert forall i: Instance :: i in SortByName(s) <==> i in multiset(SortByName(s));
  }

  ghost predicate SortedByName(s: seq<Instance>)
  {
    forall i, j :: 0 <= i < j < |s| ==> !Sorting.Less(s[j].name, s[i].name)
  }

  lemma {:induction false} InsertByNameSorts(x: Instance, s: seq<Instance>)
    requires SortedByName(s)
    ensures SortedByName(InsertByName(x, s))
  {
    if s == [] {
    } else if !Sorting.Less(s[0].name, x.name) {
      forall j | 0 <= j < |s|
        ensures !Sorting.Less(s[j].name, x.name)
      {
        Sorting.LessIsTotal(s[0].name, s[j].name);
        if Sorting.Less(s[0].name, s[j].name) && Sorting.Less(s[j].name, x.name) {
          Sorting.LessIsTransitive(s[0].name, s[j].name, x.name);
        }
      }
    } else {
      InsertByNameSorts(x, s[1..]);
      InsertedMembers(x, s[1..]);
      var t := InsertByName(x, s[1..]);
      Sorting.LessIsTotal(s[0].name, x.name);
      forall j | 0 <= j < |t|
        ensures !Sorting.Less(t[j].name, s[0].name)
      {
        assert t[j] in t;
      }
    }
  }

  lemma {:induction false} SortByNameSorts(s: seq<Instance>)
    ensures SortedByName(SortByName(s)) && multiset(SortByName(s)) == multiset(s)
  {
    SortByNameKeeps(s);
    if s != [] {
      SortByNameSorts(s[1..]);
      InsertByNameSorts(s[0], SortByName(s[1..]));
    }
  }

  /** The instances of the list that have a name, in their order. */
  function Named(s: seq<Instance>, name: string): seq<Instance>
  {
    if s == [] then []
    else (if s[0].name == name then [s[0]] else []) + Named(s[1..], name)
  }

  lemma {:induction false} InsertByNameIsStable(x: Instance, s: seq<Instance>, name: string)
    ensures Named(InsertByName(x, s), name) == (if x.name == name then [x] else []) + Named(s, name)
  {
    if s == [] || !Sorting.Less(s[0].name, x.name) {
      assert ([x] + s)[1..] == s;
    } else {
      InsertByNameIsStable(x, s[1..], name);
      Sorting.LessIsTotal(s[0].name, x.name);
      assert ([s[0]] + InsertByName(x, s[1..]))[1..] == InsertByName(x, s[1..]);
    }
  }

  /** The sort is stable: instances of one name keep their order. */
  lemma {:induction false} SortByNameIsStable(s: seq<Instance>, name: string)
    ensures Named(SortByName(s), name) == Named(s, name)
  {
    if s != [] {
      SortByNameIsStable(s[1..], name);
      InsertByNameIsStable(s[0], SortByName(s[1..]), name);
    }
  }

  ghost predicate NamesDiffer(s: seq<Instance>)
  {
    forall i, j :: 0 <= i < j < |s| ==> s[i].name != s[j].name
  }

  lemma SameFirstInstance(a: seq<Instance>, b: seq<Instance>)
    requires SortedByName(a) && SortedByName(b) && NamesDiffer(a) && a != [] && b != [] && multiset(a) == multiset(b)
    ensures a[0] == b[0]
  {
    assert a[0] in multiset(b) && b[0] in multiset(a);
    var i :| 0 <= i < |b| && b[i] == a[0];
    var j :| 0 <= j < |a| && a[j] == b[0];
    Sorting.LessIsTotal(a[0].name, b[0].name);
  }

  lemma RestOfInstances(a: seq<Instance>)
    requires a != []
    ensures multiset(a[1..]) == multiset(a) - multiset{a[0]}
  {
    assert a == [a[0]] + a[1..];
  }

  lemma {:induction false} SortedInstancesAreEqual(a: seq<Instance>, b: seq<Instance>)
    requires SortedByName(a) && SortedByName(b) && NamesDiffer(a) && NamesDiffer(b) && multiset(a) == multiset(b)
    ensures a == b
  {
    assert |a| == |multiset(a)| == |multiset(b)| == |b|;
    if a != [] && b != [] {
      SameFirstInstance(a, b);
      RestOfInstances(a);
      RestOfInstances(b);
      SortedInstancesAreEqual(a[1..], b[1..]);
      assert a == [a[0]] + a[1..] && b == [b[0]] + b[1..];
    }
  }

  lemma NamesStayDifferent(s: seq<Instance>)
    requires NamesDiffer(s)
    ensures NamesDiffer(SortByName(s))
  {
    SortByNameKeeps(s);
    var t := SortByName(s);
    forall i, j | 0 <= i < j < |t|
      ensures t[i].name != t[j].name
    {
      if t[i].name == t[j].name {
        NameTwice(t, i, j);
        SortByNameIsStable(s, t[i].name);
        NamedOnce(s, t[i].name);
      }
    }
  }

  lemma {:induction false} NameTwice(s: seq<Instance>, i: nat, j: nat)
    requires i < j < |s| && s[i].name == s[j].name
    ensures |Named(s, s[i].name)| >= 2
    decreases |s|
  {
    if i == 0 {
      NameOnce(s[1..], j - 1);
    } else {
      NameTwice(s[1..], i - 1, j - 1);
    }
  }

  lemma {:induction false} NameOnce(s: seq<Instance>, i: nat)
    requires i < |s|
    ensures |Named(s, s[i].name)| >= 1
    decreases |s|
  {
    if i > 0 {
      NameOnce(s[1..], i - 1);
    }
  }

  lemma {:induction false} NamedOnce(s: seq<Instance>, name: string)
    requires NamesDiffer(s)
    ensures |Named(s, name)| <= 1
    ensures (forall i :: 0 <= i < |s| ==> s[i].name != name) ==> |Named(s, name)| == 0
  {
    if s != [] {
      NamedOnce(s[1..], name);
      if s[0].name == name {
        assert forall i :: 0 <= i < |s[1..]| ==> s[1..][i] == s[i + 1];
      }
    }
  }

  /** Whatever order a lister returns the instances in, the account gets the
      same owners in the same order. */
  lemma ListingOrderIsInvisible(a: seq<Instance>, b: seq<Instance>)
    requires NamesDiffer(a) && NamesDiffer(b) && multiset(a) == multiset(b)
    ensures SortByName(a) == SortByName(b)
  {
    SortByNameSorts(a);
    SortByNameSorts(b);
    NamesStayDifferent(a);
    NamesStayDifferent(b);
    SortedInstancesAreEqual(SortByName(a), SortByName(b));
  }

  /** `serviceAccountOwners`, given what the lister returned. */
  function AccountOwners(rcl: Instance, listed: seq<Instance>): seq<Instance>
  {
    if WantsOwnServiceAccount(rcl) then [rcl] else SortByName(listed)
  }

  ghost predicate DistinctNames(s: seq<Instance>)
  {
    forall i, j :: 0 <= i < j < |s| ==> InstanceKey(s[i]) != InstanceKey(s[j])
  }

  lemma InsertedMembers(x: Instance, s: seq<Instance>)
    ensures forall i :: i in InsertByName(x, s) ==> i == x || i in s
  {
    InsertByNameKeeps(x, s);
    assert forall i: Instance :: i in InsertByName(x, s) ==> i in multiset(InsertByName(x, s));
  }

  lemma {:induction false} InsertByNameDistinct(x: Instance, s: seq<Instance>)
    requires DistinctNames(s) && forall i :: i in s ==> InstanceKey(i) != InstanceKey(x)
    ensures DistinctNames(InsertByName(x, s))
  {
    if s != [] && Sorting.Less(s[0].name, x.name) {
      InsertByNameDistinct(x, s[1..]);
      InsertedMembers(x, s[1..]);
      var t := InsertByName(x, s[1..]);
      forall j | 0 <= j < |t|
        ensures InstanceKey(t[j]) != InstanceKey(s[0])
      {
        assert t[j] in t;
        assert s[0] in s;
      }
    }
  }

  lemma {:induction false} SortByNameDistinct(s: seq<Instance>)
    requires DistinctNames(s)
    ensures DistinctNames(SortByName(s))
  {
    if s != [] {
      SortByNameDistinct(s[1..]);
      SortByNameSameMembers(s[1..]);
      InsertByNameDistinct(s[0], SortByName(s[1..]));
    }
  }

  /** An instance owns the account of its own alone, and without a cloud identity
      every listed instance owns the shared one, in the order of their names. */
  lemma AccountOwnersFollowAuth(rcl: Instance, listed: seq<Instance>)
    ensures rcl.auth.AwsAuth? && (rcl.auth.eksIamRole.Some? || rcl.auth.iam.Some?) ==> AccountOwners(rcl, listed) == [rcl]
    ensures rcl.auth.GoogleCloudAuth? && (rcl.auth.gcpServiceAccount.Some? || rcl.auth.kubernetesServiceAccount.Some?) ==>
              AccountOwners(rcl, listed) == [rcl]
    ensures rcl.auth.NoAuth? ==>
              var owners := AccountOwners(rcl, listed);
              && multiset(owners) == multiset(listed)
              && forall i, j :: 0 <= i < j < |owners| ==> !Sorting.Less(owners[j].name, owners[i].name)
    ensures rcl.auth == AwsAuth(None, None) || rcl.auth == GoogleCloudAuth(None, None) ==>
              AccountOwners(rcl, listed) == AccountOwners(rcl.(auth := NoAuth), listed)
  {
    SortByNameSorts(listed);
  }

  // ------------------------------------------------------- desired-state facts

  lemma {:induction false} AccountOptionsOnlyNameAndAnnotate(sa: ServiceAccount, options: seq<AccountOption>)
    ensures var r := ApplyAccountOptions(sa, options);
            r.meta.labels == sa.meta.labels && r.meta.owners == sa.meta.owners
            && r.meta.uid == sa.meta.uid && r.meta.version == sa.meta.version
            && r.secrets == sa.secrets && r.imagePullSecrets == sa.imagePullSecrets
    decreases |options|
  {
    if options != [] {
      AccountOptionsOnlyNameAndAnnotate(ApplyAccountOption(sa, options[0]), options[1..]);
    }
  }

  lemma DesiredAccountShape(rcl: Instance, owners: seq<Instance>)
    ensures var d := DesiredAccount(rcl, owners);
            d.meta.owners == OwnerRefs(owners) && Managed(d) && d.meta.labels == CommonLabels(rcl.kind)
            && d.meta.uid == 0 && d.meta.version == 0 && d.secrets == [] && d.imagePullSecrets == []
    ensures DesiredAccount(rcl, owners).meta.labels
            == map["app.kubernetes.io/name" := ToLower(rcl.kind), "app.kubernetes.io/component" := "adapter",
                   "app.kubernetes.io/part-of" := "triggermesh", "app.kubernetes.io/managed-by" := "triggermesh-controller"]
  {
    AccountOptionsOnlyNameAndAnnotate(
      ServiceAccount(
        ObjectMeta(ServiceAccountName(rcl), 0, 0, CommonLabels(rcl.kind), map[], OwnerRefs(owners)), [], []),
      ServiceAccountOptions(rcl));
  }

  lemma {:induction false} AccountOptionsIgnoreOwners(sa: ServiceAccount, other: ServiceAccount, options: seq<AccountOption>)
    requires sa.meta.name == other.meta.name && sa.meta.annotations == other.meta.annotations
    ensures var r, q := ApplyAccountOptions(sa, options), ApplyAccountOptions(other, options);
            r.meta.name == q.meta.name && r.meta.annotations == q.meta.annotations
    decreases |options|
  {
    if options != [] {
      AccountOptionsIgnoreOwners(ApplyAccountOption(sa, options[0]), ApplyAccountOption(other, options[0]), options[1..]);
    }
  }

  /** The account named in an adapter's pod template, built without owners, is
      the one that the RBAC reconciler creates with them. */
  lemma AccountNameIgnoresOwners(rcl: Instance, a: seq<Instance>, b: seq<Instance>)
    ensures DesiredAccount(rcl, a).meta.name == DesiredAccount(rcl, b).meta.name
    ensures DesiredAccount(rcl, a).meta.annotations == DesiredAccount(rcl, b).meta.annotations
  {
    var base := (o: seq<Instance>) =>
      ServiceAccount(ObjectMeta(ServiceAccountName(rcl), 0, 0, CommonLabels(rcl.kind), map[], OwnerRefs(o)), [], []);
    AccountOptionsIgnoreOwners(base(a), base(b), ServiceAccountOptions(rcl));
  }

  /** Instances that share an account agree on everything but its owners. */
  lemma SharedAccountIsTheSameForAll(x: Instance, y: Instance, owners: seq<Instance>)
    requires x.kind == y.kind && !WantsOwnServiceAccount(x) && !WantsOwnServiceAccount(y)
    ensures DesiredAccount(x, owners) == DesiredAccount(y, owners)
    ensures DesiredAccount(x, owners).meta.name == MTAdapterObjectName(x.kind)
  {
    assert ServiceAccountOptions(x) == [] && ServiceAccountOptions(y) == [];
  }

  // ---------------------------------------------------------- name separation

  predicate DashFree(kind: string)
  {
    '-' !in kind
  }

  lemma LowerKeepsDashFree(kind: string)
    requires DashFree(kind)
    ensures DashFree(ToLower(kind))
  {
    var t := ToLower(kind);
    assert forall i :: 0 <= i < |t| ==> t[i] == LowerChar(kind[i]) && kind[i] in kind;
  }

  lemma SplitDedicatedName(kind: string, name: string)
    requires DashFree(kind)
    ensures Split(DedicatedAccountName(kind, name), '-') == [ToLower(kind), "i"] + Split(name, '-')
  {
    LowerKeepsDashFree(kind);
    var rest := "i" + ['-'] + name;
    assert DedicatedAccountName(kind, name) == ToLower(kind) + ['-'] + rest;
    SplitAfterFree(ToLower(kind), rest, '-');
    SplitAfterFree("i", name, '-');
    assert [ToLower(kind)] + (["i"] + Split(name, '-')) == [ToLower(kind), "i"] + Split(name, '-');
  }

  /** Dedicated account names identify the component and the instance. */
  lemma DedicatedNamesAreInjective(kind: string, name: string, kind': string, name': string)
    requires DashFree(kind) && DashFree(kind')
    requires DedicatedAccountName(kind, name) == DedicatedAccountName(kind', name')
    ensures ComponentName(kind) == ComponentName(kind') && name == name'
  {
    SplitDedicatedName(kind, name);
    SplitDedicatedName(kind', name');
    var x := [ToLower(kind), "i"] + Split(name, '-');
    var y := [ToLower(kind'), "i"] + Split(name', '-');
    assert x[0] == y[0];
    assert x[2..] == Split(name, '-') && y[2..] == Split(name', '-');
    JoinSplit(name, '-');
    JoinSplit(name', '-');
  }

  /** No dedicated name clashes with a shared one, even for an instance that
      is called "adapter". */
  lemma DedicatedNamesAreNeverShared(kind: string, name: string, kind': string)
    requires DashFree(kind) && DashFree(kind')
    ensures DedicatedAccountName(kind, name) != MTAdapterObjectName(kind')
  {
    SplitDedicatedName(kind, name);
    LowerKeepsDashFree(kind');
    assert MTAdapterObjectName(kind') == ToLower(kind') + ['-'] + COMPONENT_ADAPTER;
    SplitAfterFree(ToLower(kind'), COMPONENT_ADAPTER, '-');
    SplitFree(COMPONENT_ADAPTER, '-');
    assert |Split(MTAdapterObjectName(kind'), '-')| == 2;
  }

  /** A config-watcher binding and a multi-tenant binding never share a name,
      so the name of a binding determines the account it binds. */
  lemma BindingNamesAreSeparate(accountName: string, kind: string)
    ensures accountName + "-config-watcher" != MTAdapterObjectName(kind)
  {
    var a, b := accountName + "-config-watcher", MTAdapterObjectName(kind);
    assert a[|a| - 3] == 'h' && b[|b| - 3] == 't';
  }

  lemma ConfigWatcherNamesAreInjective(a: string, b: string)
    requires a + "-config-watcher" == b + "-config-watcher"
    ensures a == b
  {
    var x := a + "-config-watcher";
    assert |a| == |b|;
    assert a == x[..|a|] && b == x[..|b|];
  }

  // ------------------------------------------------- what a type asks for

  /** The account name that the user chose. */
  function ChosenName(auth: Auth): Option<string>
  {
    match auth
    case NoAuth => None
    case AwsAuth(_, iam) => if iam.Some? && iam.value.serviceAccount != "" then Some(iam.value.serviceAccount) else None
    case GoogleCloudAuth(_, ksa) => ksa
  }

  /** The annotation that grants the account a cloud identity; the newer of the
      two AWS settings wins. */
  function Identity(auth: Auth): StringMap
  {
    match auth
    case NoAuth => map[]
    case AwsAuth(role, iam) =>
      if iam.Some? && iam.value.role.Some? then map[ANNOTATION_EKS_IAM_ROLE := iam.value.role.value]
      else if role.Some? then map[ANNOTATION_EKS_IAM_ROLE := role.value]
      else map[]
    case GoogleCloudAuth(gsa, _) => if gsa.Some? then map[ANNOTATION_GCP_SA := gsa.value] else map[]
  }

  function WithName(sa: ServiceAccount, name: Option<string>): ServiceAccount
  {
    if name.Some? then sa.(meta := sa.meta.(name := name.value)) else sa
  }

  lemma {:induction false} AccountOptionsAppend(sa: ServiceAccount, first: seq<AccountOption>, second: seq<AccountOption>)
    ensures ApplyAccountOptions(sa, first + second) == ApplyAccountOptions(ApplyAccountOptions(sa, first), second)
    decreases |first|
  {
    if first == [] {
      assert first + second == second;
    } else {
      AccountOptionsAppend(ApplyAccountOption(sa, first[0]), first[1..], second);
      assert (first + second)[1..] == first[1..] + second;
    }
  }

  lemma OneAccountOption(sa: ServiceAccount, o: AccountOption)
    ensures ApplyAccountOptions(sa, [o]) == ApplyAccountOption(sa, o)
  {
    assert [o][1..] == [];
  }

  function AnnotateIf(sa: ServiceAccount, key: string, value: Option<string>): ServiceAccount
  {
    if value.Some? then sa.(meta := sa.meta.(annotations := sa.meta.annotations[key := value.value])) else sa
  }

  lemma OptionalAnnotation(sa: ServiceAccount, key: string, value: Option<string>)
    ensures ApplyAccountOptions(sa, if value.Some? then [SetAnnotation(key, value.value)] else []) == AnnotateIf(sa, key, value)
  {
    if value.Some? {
      OneAccountOption(sa, SetAnnotation(key, value.value));
    }
  }

  lemma OptionalName(sa: ServiceAccount, name: Option<string>)
    ensures ApplyAccountOptions(sa, if name.Some? then [SetName(name.value)] else []) == WithName(sa, name)
  {
    if name.Some? {
      OneAccountOption(sa, SetName(name.value));
    }
  }

  lemma AwsOptions(sa: ServiceAccount, i: Instance)
    requires i.auth.AwsAuth? && sa.meta.annotations == map[]
    ensures ApplyAccountOptions(sa, ServiceAccountOptions(i))
            == WithName(sa.(meta := sa.meta.(annotations := Identity(i.auth))), ChosenName(i.auth))
  {
    var role := i.auth.eksIamRole;
    var newer := if i.auth.iam.Some? then i.auth.iam.value.role else None;
    var a := if role.Some? then [SetAnnotation(ANNOTATION_EKS_IAM_ROLE, role.value)] else [];
    var b := if newer.Some? then [SetAnnotation(ANNOTATION_EKS_IAM_ROLE, newer.value)] else [];
    var c := if ChosenName(i.auth).Some? then [SetName(ChosenName(i.auth).value)] else [];
    assert ServiceAccountOptions(i) == a + (b + c);
    AccountOptionsAppend(sa, a, b + c);
    OptionalAnnotation(sa, ANNOTATION_EKS_IAM_ROLE, role);
    AccountOptionsAppend(AnnotateIf(sa, ANNOTATION_EKS_IAM_ROLE, role), b, c);
    OptionalAnnotation(AnnotateIf(sa, ANNOTATION_EKS_IAM_ROLE, role), ANNOTATION_EKS_IAM_ROLE, newer);
    OptionalName(AnnotateIf(AnnotateIf(sa, ANNOTATION_EKS_IAM_ROLE, role), ANNOTATION_EKS_IAM_ROLE, newer), ChosenName(i.auth));
  }

  lemma GoogleCloudOptions(sa: ServiceAccount, i: Instance)
    requires i.auth.GoogleCloudAuth? && sa.meta.annotations == map[]
    ensures ApplyAccountOptions(sa, ServiceAccountOptions(i))
            == WithName(sa.(meta := sa.meta.(annotations := Identity(i.auth))), ChosenName(i.auth))
  {
    var gsa, ksa := i.auth.gcpServiceAccount, i.auth.kubernetesServiceAccount;
    var a := if gsa.Some? then [SetAnnotation(ANNOTATION_GCP_SA, gsa.value)] else [];
    var c := if ksa.Some? then [SetName(ksa.value)] else [];
    AccountOptionsAppend(sa, a, c);
    OptionalAnnotation(sa, ANNOTATION_GCP_SA, gsa);
    OptionalName(AnnotateIf(sa, ANNOTATION_GCP_SA, gsa), ksa);
  }

  /** The name and annotations that the account of an instance gets: a chosen
      name wins, then a dedicated one where the type's authentication asks for
      an account of its own, then the shared one. */
  lemma DesiredAccountFollowsAuth(i: Instance, owners: seq<Instance>)
    ensures DesiredAccount(i, owners).meta.name
            == if ChosenName(i.auth).Some? then ChosenName(i.auth).value
               else if WantsOwnServiceAccount(i) then DedicatedAccountName(i.kind, i.name)
               else MTAdapterObjectName(i.kind)
    ensures DesiredAccount(i, owners).meta.annotations == Identity(i.auth)
    ensures WantsOwnServiceAccount(i) <==>
              || (i.auth.AwsAuth? && (i.auth.eksIamRole.Some? || i.auth.iam.Some?))
              || (i.auth.GoogleCloudAuth? && (i.auth.gcpServiceAccount.Some? || i.auth.kubernetesServiceAccount.Some?))
    ensures DedicatedAccountName(i.kind, i.name) == ToLower(i.kind) + "-i-" + i.name
    ensures MTAdapterObjectName(i.kind) == ToLower(i.kind) + "-adapter"
    ensures DesiredAccount(i, owners).meta.annotations
            == match i.auth
               case AwsAuth(_, Some(EksIam(Some(newer), _))) => map["eks.amazonaws.com/role-arn" := newer]
               case AwsAuth(Some(older), _) => map["eks.amazonaws.com/role-arn" := older]
               case GoogleCloudAuth(Some(gsa), _) => map["iam.gke.io/gcp-service-account" := gsa]
               case _ => map[]
  {
    var sa := ServiceAccount(
      ObjectMeta(ServiceAccountName(i), 0, 0, CommonLabels(i.kind), map[], OwnerRefs(owners)), [], []);
    if i.auth.AwsAuth? {
      AwsOptions(sa, i);
    } else if i.auth.GoogleCloudAuth? {
      GoogleCloudOptions(sa, i);
    }
  }

  /** Without chosen names, two instances have the same account only if they
      share one, or are the same component's instance of the same name. */
  lemma AccountsAreSeparate(x: Instance, y: Instance, owners: seq<Instance>)
    requires DashFree(x.kind) && DashFree(y.kind) && ChosenName(x.auth).None? && ChosenName(y.auth).None?
    requires DesiredAccount(x, owners).meta.name == DesiredAccount(y, owners).meta.name
    ensures WantsOwnServiceAccount(x) == WantsOwnServiceAccount(y)
    ensures ComponentName(x.kind) == ComponentName(y.kind)
    ensures WantsOwnServiceAccount(x) ==> x.name == y.name
  {
    DesiredAccountFollowsAuth(x, owners);
    DesiredAccountFollowsAuth(y, owners);
    if WantsOwnServiceAccount(x) && WantsOwnServiceAccount(y) {
      DedicatedNamesAreInjective(x.kind, x.name, y.kind, y.name);
    } else if WantsOwnServiceAccount(x) {
      DedicatedNamesAreNeverShared(x.kind, x.name, y.kind);
    } else if WantsOwnServiceAccount(y) {
      DedicatedNamesAreNeverShared(y.kind, y.name, x.kind);
    } else {
      SharedNamesAreInjective(x.kind, y.kind);
    }
  }

  lemma SharedNamesAreInjective(kind: string, kind': string)
    requires MTAdapterObjectName(kind) == MTAdapterObjectName(kind')
    ensures ComponentName(kind) == ComponentName(kind')
  {
    var n := MTAdapterObjectName(kind);
    assert n[..|n| - 8] == ComponentName(kind) && n[..|n| - 8] == ComponentName(kind');
  }
}
