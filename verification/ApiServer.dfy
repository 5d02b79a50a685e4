/** The API server: the stored objects, updated in place under optimistic
    concurrency. */
module ApiServer {
  import opened Wrappers
  import opened Objects
  import opened Components
  import opened Semantic
  import opened Cluster

  datatype ApiError = AlreadyExists | NotFound | Conflict

  class Server {
    var clock: nat
    var instances: map<ObjectKey, Instance>
    var accounts: map<string, ServiceAccount>
    var bindings: map<string, RoleBinding>
    var adapters: map<AdapterKey, Adapter>
    ghost var instancesSeen: set<Instance>
    ghost var accountsSeen: set<ServiceAccount>
    ghost var bindingsSeen: set<RoleBinding>
    ghost var adaptersSeen: set<Adapter>
    ghost var returned: set<(Instance, ServiceAccount)>

    /** The state of the machine that the server is in. */
    ghost function Value(): State
      reads this
    {
      State(clock, instances, accounts, bindings, adapters, instancesSeen, accountsSeen, bindingsSeen, adaptersSeen,
            returned)
    }

    constructor ()
      ensures Value() == INITIAL
    {
      clock, instances, accounts, bindings, adapters := 1, map[], map[], map[], map[];
      instancesSeen, accountsSeen, bindingsSeen, adaptersSeen, returned := {}, {}, {}, {}, {};
    }

    method CreateAccount(sa: ServiceAccount) returns (r: Result<ServiceAccount, ApiError>)
      modifies this
      ensures sa.meta.name in old(accounts) ==> r == Failure(AlreadyExists) && Value() == old(Value())
      ensures sa.meta.name !in old(accounts) ==>
                r == Success(sa.(meta := Stamp(sa.meta, old(clock), old(clock))))
                && Value() == PutAccount(old(Value()), r.value)
    {
      if sa.meta.name in accounts {
        return Failure(AlreadyExists);
      }
      var stored := sa.(meta := Stamp(sa.meta, clock, clock));
      accounts := accounts[stored.meta.name := stored];
      accountsSeen := accountsSeen + {stored};
      clock := clock + 1;
      return Success(stored);
    }

    method UpdateAccount(sa: ServiceAccount) returns (r: Result<ServiceAccount, ApiError>)
      modifies this
      ensures r.Success? <==> AcceptsAccount(old(Value()), sa)
      ensures r.Success? ==> r.value == UpdatedAccount(old(Value()), sa) && Value() == PutAccount(old(Value()), r.value)
      ensures r.Failure? ==> Value() == old(Value())
                             && r.error == if sa.meta.name in old(accounts) then Conflict else NotFound
    {
      if sa.meta.name !in accounts {
        return Failure(NotFound);
      }
      if accounts[sa.meta.name].meta.version != sa.meta.version {
        return Failure(Conflict);
      }
      var stored := sa.(meta := Stamp(sa.meta, accounts[sa.meta.name].meta.uid, clock));
      accounts := accounts[stored.meta.name := stored];
      accountsSeen := accountsSeen + {stored};
      clock := clock + 1;
      return Success(stored);
    }

    method CreateBinding(b: RoleBinding) returns (r: Result<RoleBinding, ApiError>)
      modifies this
      ensures b.meta.name in old(bindings) ==> r == Failure(AlreadyExists) && Value() == old(Value())
      ensures b.meta.name !in old(bindings) ==>
                r == Success(b.(meta := Stamp(b.meta, old(clock), old(clock))))
                && Value() == PutBinding(old(Value()), r.value)
    {
      if b.meta.name in bindings {
        return Failure(AlreadyExists);
      }
      var stored := b.(meta := Stamp(b.meta, clock, clock));
      bindings := bindings[stored.meta.name := stored];
      bindingsSeen := bindingsSeen + {stored};
      clock := clock + 1;
      return Success(stored);
    }

    method UpdateBinding(b: RoleBinding) returns (r: Result<RoleBinding, ApiError>)
      modifies this
      ensures r.Success? <==> AcceptsBinding(old(Value()), b)
      ensures r.Success? ==>
                r.value == b.(meta := Stamp(b.meta, old(bindings)[b.meta.name].meta.uid, old(clock)))
                && Value() == PutBinding(old(Value()), r.value)
      ensures r.Failure? ==> Value() == old(Value())
                             && r.error == if b.meta.name in old(bindings) then Conflict else NotFound
    {
      if b.meta.name !in bindings {
        return Failure(NotFound);
      }
      if bindings[b.meta.name].meta.version != b.meta.version {
        return Failure(Conflict);
      }
      var stored := b.(meta := Stamp(b.meta, bindings[b.meta.name].meta.uid, clock));
      bindings := bindings[stored.meta.name := stored];
      bindingsSeen := bindingsSeen + {stored};
      clock := clock + 1;
      return Success(stored);
    }

    /** The server fills unset fields of an adapter from some defaults. */
    method CreateAdapter(a: Adapter, defaults: Adapter) returns (r: Result<Adapter, ApiError>)
      modifies this
      ensures AdapterKey(a.backend, a.meta.name) in old(adapters) ==>
                r == Failure(AlreadyExists) && Value() == old(Value())
      ensures AdapterKey(a.backend, a.meta.name) !in old(adapters) ==>
                r == Success(Fill(a, defaults).(meta := Stamp(Fill(a, defaults).meta, old(clock), old(clock))))
                && Value() == PutAdapter(old(Value()), r.value)
    {
      var k := AdapterKey(a.backend, a.meta.name);
      if k in adapters {
        return Failure(AlreadyExists);
      }
      var filled := Fill(a, defaults);
      var stored := filled.(meta := Stamp(filled.meta, clock, clock));
      adapters := adapters[k := stored];
      adaptersSeen := adaptersSeen + {stored};
      clock := clock + 1;
      return Success(stored);
    }

    method UpdateAdapter(a: Adapter, defaults: Adapter) returns (r: Result<Adapter, ApiError>)
      modifies this
      ensures r.Success? <==> AcceptsAdapter(old(Value()), a)
      ensures r.Success? ==>
                r.value == Fill(a, defaults).(meta := Stamp(Fill(a, defaults).meta,
                  old(adapters)[AdapterKey(a.backend, a.meta.name)].meta.uid, old(clock)))
                && Value() == PutAdapter(old(Value()), r.value)
      ensures r.Failure? ==> Value() == old(Value())
                             && r.error == if AdapterKey(a.backend, a.meta.name) in old(adapters) then Conflict else NotFound
    {
      var k := AdapterKey(a.backend, a.meta.name);
      if k !in adapters {
        return Failure(NotFound);
      }
      if adapters[k].meta.version != a.meta.version {
        return Failure(Conflict);
      }
      var filled := Fill(a, defaults);
      var stored := filled.(meta := Stamp(filled.meta, adapters[k].meta.uid, clock));
      adapters := adapters[k := stored];
      adaptersSeen := adaptersSeen + {stored};
      clock := clock + 1;
      return Success(stored);
    }

    /** Records which account the reconciliation of an instance goes on with. */
    ghost method Record(rcl: Instance, sa: ServiceAccount)
      modifies this`returned
      ensures Value() == Return(old(Value()), rcl, sa)
    {
      returned := returned + {(rcl, sa)};
    }
  }
}
