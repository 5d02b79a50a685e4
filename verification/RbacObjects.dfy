/** The desired RBAC objects, which builders and reconcilers mutate in place. */
module RbacObjects {
  import opened Objects
  import opened Components
  import opened Text
  import opened Wrappers

  class ServiceAccountObject {
    var name: string
    var version: nat
    var labels: StringMap
    var annotations: StringMap
    var owners: seq<OwnerReference>
    var secrets: seq<string>
    var imagePullSecrets: seq<string>

    function Value(): ServiceAccount
      reads this
    {
      ServiceAccount(ObjectMeta(name, 0, version, labels, annotations, owners), secrets, imagePullSecrets)
    }

    constructor (name: string, labels: StringMap, owners: seq<OwnerReference>)
      ensures Value() == ServiceAccount(ObjectMeta(name, 0, 0, labels, map[], owners), [], [])
    {
      this.name, this.labels, this.owners := name, labels, owners;
      version, annotations, secrets, imagePullSecrets := 0, map[], [], [];
    }

    method Apply(o: AccountOption)
      modifies this
      ensures Value() == ApplyAccountOption(old(Value()), o)
    {
      match o {
        case SetAnnotation(k, v) => annotations := annotations[k := v];
        case SetName(n) => name := n;
      }
    }
  }

  /** serviceAccount: the mutations of the instance's type come last. */
  method NewServiceAccount(rcl: Instance, owners: seq<Instance>) returns (sa: ServiceAccountObject)
    ensures fresh(sa) && sa.Value() == DesiredAccount(rcl, owners)
  {
    sa := new ServiceAccountObject(ServiceAccountName(rcl), CommonLabels(rcl.kind), OwnerRefs(owners));
    var mutations := ServiceAccountOptions(rcl);
    ghost var base := sa.Value();
    for i := 0 to |mutations|
      invariant fresh(sa) && sa.Value() == ApplyAccountOptions(base, mutations[..i])
    {
      sa.Apply(mutations[i]);
      assert mutations[..i + 1] == mutations[..i] + [mutations[i]];
      AccountOptionsSnoc(base, mutations[..i], mutations[i]);
    }
    assert mutations[..|mutations|] == mutations;
  }

  lemma {:induction false} AccountOptionsSnoc(sa: ServiceAccount, options: seq<AccountOption>, o: AccountOption)
    ensures ApplyAccountOptions(sa, options + [o]) == ApplyAccountOption(ApplyAccountOptions(sa, options), o)
    decreases |options|
  {
    if options == [] {
      assert ([o])[1..] == [];
      assert options + [o] == [o];
    } else {
      AccountOptionsSnoc(ApplyAccountOption(sa, options[0]), options[1..], o);
      assert (options + [o])[1..] == options[1..] + [o];
    }
  }

  class RoleBindingObject {
    const name: string
    const labels: StringMap
    const roleName: string
    const subject: string
    var version: nat
    var owners: seq<OwnerReference>

    function Value(): RoleBinding
      reads this
    {
      RoleBinding(ObjectMeta(name, 0, version, labels, map[], owners), roleName, subject)
    }

    constructor (name: string, roleName: string, rcl: Instance, owner: ServiceAccount)
      ensures Value() == RoleBinding(ObjectMeta(name, 0, 0, CommonLabels(rcl.kind), map[], []), roleName, owner.meta.name)
    {
      this.name, this.roleName, labels, subject := name, roleName, CommonLabels(rcl.kind), owner.meta.name;
      version, owners := 0, [];
    }

    method OwnByServiceAccount(owner: ServiceAccount)
      modifies this`owners
      ensures owners == [AccountRef(owner)]
    {
      owners := [AccountRef(owner)];
    }
  }

  /** newConfigWatchRoleBinding and newMTAdapterRoleBinding. */
  method NewRoleBinding(rcl: Instance, owner: ServiceAccount, role: BindingRole) returns (rb: RoleBindingObject)
    ensures fresh(rb) && rb.Value() == DesiredBinding(rcl, owner, role)
    ensures role.ConfigWatcher? ==>
              rb.name == owner.meta.name + "-config-watcher" && rb.roleName == "triggermesh-config-watcher"
    ensures role.MultiTenantAdapter? ==> rb.name == ToLower(rcl.kind) + "-adapter" && rb.roleName == ToLower(rcl.kind) + "-adapter"
    ensures rb.subject == owner.meta.name && rb.version == 0
    ensures rb.owners == [OwnerReference("v1", "ServiceAccount", owner.meta.name, owner.meta.uid, Some(true))]
    ensures rb.labels == map["app.kubernetes.io/name" := ToLower(rcl.kind), "app.kubernetes.io/component" := "adapter",
                             "app.kubernetes.io/part-of" := "triggermesh",
                             "app.kubernetes.io/managed-by" := "triggermesh-controller"]
  {
    if role.ConfigWatcher? {
      rb := new RoleBindingObject(owner.meta.name + "-config-watcher", ROLE_NAME_CONFIG_WATCHER, rcl, owner);
    } else {
      var baseName := MTAdapterObjectName(rcl.kind);
      rb := new RoleBindingObject(baseName, baseName, rcl, owner);
    }
    rb.OwnByServiceAccount(owner);
  }
}
