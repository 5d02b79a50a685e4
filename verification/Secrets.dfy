/** Reading secret values from the API, with a cache for one call. */
module Secrets {
  import opened Wrappers

  type Secret = map<string, string>
  type Store = map<string, Secret>

  datatype SecretRef = SecretRef(name: string, key: string)

  /** A literal value, or a reference that takes precedence over it. */
  datatype ValueFromField = ValueFromField(value: string, fromSecret: Option<SecretRef>)

  function DataAt(s: Secret, key: string): string
  {
    if key in s then s[key] else ""
  }

  /** The API client: between any two calls the stored Secrets may change, and a
      Secret that is absent cannot be read. */
  class Client {
    const stores: nat -> Store
    var calls: seq<string>

    constructor (stores: nat -> Store)
      ensures this.stores == stores && calls == []
    {
      this.stores := stores;
      calls := [];
    }

    method Get(name: string) returns (r: Option<Secret>)
      modifies this
      ensures calls == old(calls) + [name]
      ensures r == Seen(stores, |old(calls)|, name)
    {
      var store := stores(|calls|);
      calls := calls + [name];
      r := if name in store then Some(store[name]) else None;
    }
  }

  /** What the client reads in its call number `t`. */
  function Seen(stores: nat -> Store, t: nat, name: string): Option<Secret>
  {
    if name in stores(t) then Some(stores(t)[name]) else None
  }

  // ---------------------------------------------------------------------- Get

  /** How far a list of references was resolved, from call `base` on. */
  datatype Progress =
    | Resolved(values: seq<string>, cache: map<string, Secret>, fetched: seq<string>)
    | Stuck(calls: seq<string>)

  function Resolve(stores: nat -> Store, base: nat, refs: seq<ValueFromField>): Progress
  {
    if refs == [] then Resolved([], map[], [])
    else
      var p := Resolve(stores, base, refs[..|refs| - 1]);
      if p.Stuck? then p else ResolveNext(stores, base, p, refs[|refs| - 1])
  }

  function ResolveNext(stores: nat -> Store, base: nat, p: Progress, ref: ValueFromField): Progress
    requires p.Resolved?
  {
    if ref.fromSecret.None? then p.(values := p.values + [ref.value])
    else
      var SecretRef(name, key) := ref.fromSecret.value;
      if name in p.cache then p.(values := p.values + [DataAt(p.cache[name], key)])
      else
        var s := Seen(stores, base + |p.fetched|, name);
        if s.None? then Stuck(p.fetched + [name])
        else Resolved(p.values + [DataAt(s.value, key)], p.cache[name := s.value], p.fetched + [name])
  }

  lemma {:induction false} StuckStays(stores: nat -> Store, base: nat, refs: seq<ValueFromField>, i: nat)
    requires i <= |refs| && Resolve(stores, base, refs[..i]).Stuck?
    ensures Resolve(stores, base, refs) == Resolve(stores, base, refs[..i])
    decreases |refs| - i
  {
    if i < |refs| {
      assert refs[..i + 1][..i] == refs[..i];
      StuckStays(stores, base, refs, i + 1);
    } else {
      assert refs[..i] == refs;
    }
  }

  /** `GetterWithClientset.Get`. */
  method Get(client: Client, refs: seq<ValueFromField>) returns (r: Option<seq<string>>)
    modifies client
    ensures var p := Resolve(client.stores, |old(client.calls)|, refs);
            && r == (if p.Resolved? then Some(p.values) else None)
            && client.calls == old(client.calls) + (if p.Resolved? then p.fetched else p.calls)
  {
    var values: seq<string>, secretCache: map<string, Secret> := [], map[];
    ghost var base, fetched := |client.calls|, [];
    for i := 0 to |refs|
      invariant Resolve(client.stores, base, refs[..i]) == Resolved(values, secretCache, fetched)
      invariant client.calls == old(client.calls) + fetched
    {
      assert refs[..i + 1][..i] == refs[..i];
      var val := refs[i].value;
      if refs[i].fromSecret.Some? {
        var vfs := refs[i].fromSecret.value;
        var secr: Secret;
        if vfs.name in secretCache {
          secr := secretCache[vfs.name];
        } else {
          var got := client.Get(vfs.name);
          if got.None? {
            StuckStays(client.stores, base, refs, i + 1);
            return None;
          }
          secr := got.value;
          secretCache := secretCache[vfs.name := secr];
          fetched := fetched + [vfs.name];
        }
        val := DataAt(secr, vfs.key);
      }
      values := values + [val];
    }
    assert refs[..|refs|] == refs;
    r := Some(values);
  }

  // ------------------------------------------------------------- its guarantees

  function ValueIn(snapshots: map<string, Secret>, ref: ValueFromField): Option<string>
  {
    if ref.fromSecret.None? then Some(ref.value)
    else if ref.fromSecret.value.name !in snapshots then None
    else
      var secret := snapshots[ref.fromSecret.value.name];
      Some(if ref.fromSecret.value.key in secret then secret[ref.fromSecret.value.key] else "")
  }

  ghost predicate Distinct(names: seq<string>)
  {
    forall i, j :: 0 <= i < j < |names| ==> names[i] != names[j]
  }

  lemma NextKeepsSnapshots(stores: nat -> Store, base: nat, p: Progress, ref: ValueFromField)
    requires p.Resolved? && ResolveNext(stores, base, p, ref).Resolved?
    ensures var q := ResolveNext(stores, base, p, ref);
            && q.values[..|p.values|] == p.values && |q.values| == |p.values| + 1
            && ValueIn(q.cache, ref) == Some(q.values[|p.values|])
            && (forall n <- p.cache :: n in q.cache && q.cache[n] == p.cache[n])
  {
  }

  /** One value per reference, in order, all from one snapshot of each Secret. */
  lemma {:induction false} OneSnapshotPerSecret(stores: nat -> Store, base: nat, refs: seq<ValueFromField>)
    requires Resolve(stores, base, refs).Resolved?
    ensures var p := Resolve(stores, base, refs);
            && |p.values| == |refs|
            && forall i :: 0 <= i < |refs| ==> ValueIn(p.cache, refs[i]) == Some(p.values[i])
  {
    if refs != [] {
      var init := refs[..|refs| - 1];
      OneSnapshotPerSecret(stores, base, init);
      var q, p := Resolve(stores, base, init), Resolve(stores, base, refs);
      NextKeepsSnapshots(stores, base, q, refs[|refs| - 1]);
      forall i | 0 <= i < |init|
        ensures ValueIn(p.cache, refs[i]) == Some(p.values[i])
      {
        assert init[i] == refs[i] && ValueIn(q.cache, init[i]) == Some(q.values[i]);
        assert p.values[i] == p.values[..|q.values|][i];
      }
    }
  }

  /** The snapshots are what the client read, each Secret at most once. */
  ghost predicate FetchedOnce(stores: nat -> Store, base: nat, p: Progress)
    requires p.Resolved?
  {
    && Distinct(p.fetched) && (forall n :: n in p.fetched <==> n in p.cache)
    && (forall t :: 0 <= t < |p.fetched| ==> Seen(stores, base + t, p.fetched[t]) == Some(p.cache[p.fetched[t]]))
  }

  lemma {:induction false} EachSecretIsFetchedOnce(stores: nat -> Store, base: nat, refs: seq<ValueFromField>)
    requires Resolve(stores, base, refs).Resolved?
    ensures FetchedOnce(stores, base, Resolve(stores, base, refs))
  {
    if refs != [] {
      EachSecretIsFetchedOnce(stores, base, refs[..|refs| - 1]);
      var q := Resolve(stores, base, refs[..|refs| - 1]);
      NextFetchesOnce(stores, base, q, refs[|refs| - 1]);
    }
  }

  lemma NextFetchesOnce(stores: nat -> Store, base: nat, q: Progress, ref: ValueFromField)
    requires q.Resolved? && FetchedOnce(stores, base, q) && ResolveNext(stores, base, q, ref).Resolved?
    ensures FetchedOnce(stores, base, ResolveNext(stores, base, q, ref))
  {
    var p := ResolveNext(stores, base, q, ref);
    if p.fetched != q.fetched {
      var name := ref.fromSecret.value.name;
      assert forall t :: 0 <= t < |q.fetched| ==> q.fetched[t] in q.fetched && p.fetched[t] == q.fetched[t];
    }
  }

  /** What a lookup of every reference by itself gives, when nothing changes. */
  function Uncached(store: Store, refs: seq<ValueFromField>): Option<seq<string>>
  {
    if refs == [] then Some([])
    else
      var init, last := Uncached(store, refs[..|refs| - 1]), ValueIn(store, refs[|refs| - 1]);
      if init.None? || last.None? then None else Some(init.value + [last.value])
  }

  function Values(p: Progress): Option<seq<string>>
  {
    if p.Stuck? then None else Some(p.values)
  }

  /** Over a store that stays as it is, the cache makes no difference. */
  lemma {:induction false} CacheIsInvisible(stores: nat -> Store, base: nat, refs: seq<ValueFromField>, store: Store)
    requires forall t :: stores(t) == store
    ensures Values(Resolve(stores, base, refs)) == Uncached(store, refs)
    ensures Resolve(stores, base, refs).Resolved? ==>
              forall n <- Resolve(stores, base, refs).cache :: n in store && Resolve(stores, base, refs).cache[n] == store[n]
  {
    if refs != [] {
      CacheIsInvisible(stores, base, refs[..|refs| - 1], store);
    }
  }

  // -------------------------------------------------------------- Credentials

  datatype SecurityCredentials = SecurityCredentials(
    accessKeyID: ValueFromField,
    secretAccessKey: ValueFromField,
    sessionToken: ValueFromField)

  /** What `Credentials` computes: only the Secret of the access key is cached. */
  datatype Outcome = Outcome(values: Option<seq<string>>, calls: seq<string>)

  function ReadField(stores: nat -> Store, base: nat, cache: map<string, Secret>, calls: seq<string>, f: ValueFromField)
    : (r: (Option<string>, seq<string>))
  {
    if f.fromSecret.None? then (Some(f.value), calls)
    else
      var SecretRef(name, key) := f.fromSecret.value;
      if name in cache then (Some(DataAt(cache[name], key)), calls)
      else
        var s := Seen(stores, base + |calls|, name);
        (if s.None? then None else Some(DataAt(s.value, key)), calls + [name])
  }

  /** The cache that the first field leaves behind. */
  function FirstCache(stores: nat -> Store, base: nat, f: ValueFromField): map<string, Secret>
  {
    if f.fromSecret.None? then map[]
    else
      var s := Seen(stores, base, f.fromSecret.value.name);
      if s.None? then map[] else map[f.fromSecret.value.name := s.value]
  }

  function ReadCredentials(stores: nat -> Store, base: nat, c: SecurityCredentials): Outcome
  {
    var first := ReadField(stores, base, map[], [], c.accessKeyID);
    if first.0.None? then Outcome(None, first.1)
    else
      var cache := FirstCache(stores, base, c.accessKeyID);
      var second := ReadField(stores, base, cache, first.1, c.secretAccessKey);
      if second.0.None? then Outcome(None, second.1)
      else
        var third := ReadField(stores, base, cache, second.1, c.sessionToken);
        if third.0.None? then Outcome(None, third.1)
        else Outcome(Some([first.0.value, second.0.value, third.0.value]), third.1)
  }

  /** `Credentials`, which overwrites its three locals one after the other. */
  method Credentials(client: Client, creds: SecurityCredentials) returns (r: Option<(string, string, string)>)
    modifies client
    ensures var o := ReadCredentials(client.stores, |old(client.calls)|, creds);
            && client.calls == old(client.calls) + o.calls
            && (r.None? <==> o.values.None?) && (r.Some? ==> o.values == Some([r.value.0, r.value.1, r.value.2]))
  {
    var accessKeyID, secretAccessKey, sessionToken :=
      creds.accessKeyID.value, creds.secretAccessKey.value, creds.sessionToken.value;
    var secretCache: map<string, Secret> := map[];

    if creds.accessKeyID.fromSecret.Some? {
      var vfs := creds.accessKeyID.fromSecret.value;
      var secr := client.Get(vfs.name);
      if secr.None? {
        return None;
      }
      secretCache := map[vfs.name := secr.value];
      accessKeyID := DataAt(secr.value, vfs.key);
    }

    if creds.secretAccessKey.fromSecret.Some? {
      var vfs := creds.secretAccessKey.fromSecret.value;
      if vfs.name in secretCache {
        secretAccessKey := DataAt(secretCache[vfs.name], vfs.key);
      } else {
        var secr := client.Get(vfs.name);
        if secr.None? {
          return None;
        }
        secretAccessKey := DataAt(secr.value, vfs.key);
      }
    }

    if creds.sessionToken.fromSecret.Some? {
      var vfs := creds.sessionToken.fromSecret.value;
      if vfs.name in secretCache {
        sessionToken := DataAt(secretCache[vfs.name], vfs.key);
      } else {
        var secr := client.Get(vfs.name);
        if secr.None? {
          return None;
        }
        sessionToken := DataAt(secr.value, vfs.key);
      }
    }
    return Some((accessKeyID, secretAccessKey, sessionToken));
  }

  function Fields(c: SecurityCredentials): seq<ValueFromField>
  {
    [c.accessKeyID, c.secretAccessKey, c.sessionToken]
  }

  function AsOutcome(p: Progress): Outcome
  {
    if p.Stuck? then Outcome(None, p.calls) else Outcome(Some(p.values), p.fetched)
  }

  /** The Secret of the secret key is asked for again for the session token. */
  predicate Refetches(c: SecurityCredentials)
  {
    var k, t := c.secretAccessKey.fromSecret, c.sessionToken.fromSecret;
    && k.Some? && t.Some? && k.value.name == t.value.name
    && !(c.accessKeyID.fromSecret.Some? && c.accessKeyID.fromSecret.value.name == k.value.name)
  }

  function ResolveThree(stores: nat -> Store, base: nat, c: SecurityCredentials): Progress
  {
    var one := ResolveNext(stores, base, Resolved([], map[], []), c.accessKeyID);
    var two := if one.Stuck? then one else ResolveNext(stores, base, one, c.secretAccessKey);
    if two.Stuck? then two else ResolveNext(stores, base, two, c.sessionToken)
  }

  lemma ResolveFields(stores: nat -> Store, base: nat, c: SecurityCredentials)
    ensures Resolve(stores, base, Fields(c)) == ResolveThree(stores, base, c)
  {
    var f := Fields(c);
    assert f[..2][..1] == f[..1] && f[..1][..0] == [];
    assert Resolve(stores, base, f[..1]) == ResolveNext(stores, base, Resolved([], map[], []), c.accessKeyID);
    assert f[..2][1] == c.secretAccessKey;
  }

  lemma ThreeInARow(x: string, y: string, z: string)
    ensures [] + [x] + [y] + [z] == [x, y, z]
  {
  }

  lemma ThreeStepsAgree(stores: nat -> Store, base: nat, c: SecurityCredentials)
    requires !Refetches(c)
    ensures ReadCredentials(stores, base, c) == AsOutcome(ResolveThree(stores, base, c))
  {
    var p := ResolveThree(stores, base, c);
    if p.Resolved? {
      ThreeInARow(p.values[0], p.values[1], p.values[2]);
    }
  }

  /** When no Secret is fetched again, Credentials is Get on its three fields:
      the same values or the same failure, by the same calls, whatever happens
      to the Secrets in the meantime. */
  lemma CredentialsIsGet(stores: nat -> Store, base: nat, c: SecurityCredentials)
    requires !Refetches(c)
    ensures ReadCredentials(stores, base, c) == AsOutcome(Resolve(stores, base, Fields(c)))
  {
    ResolveFields(stores, base, c);
    ThreeStepsAgree(stores, base, c);
  }

  /** Over a store that stays as it is, it always is. */
  lemma CredentialsIsGetOverFixedStore(stores: nat -> Store, base: nat, c: SecurityCredentials, store: Store)
    requires forall t :: stores(t) == store
    ensures ReadCredentials(stores, base, c).values == Values(Resolve(stores, base, Fields(c)))
    ensures ReadCredentials(stores, base, c).values == Uncached(store, Fields(c))
  {
    ResolveFields(stores, base, c);
    var p := Resolve(stores, base, Fields(c));
    if p.Resolved? {
      OneSnapshotPerSecret(stores, base, Fields(c));
      ThreeInARow(p.values[0], p.values[1], p.values[2]);
    }
    CacheIsInvisible(stores, base, Fields(c), store);
  }

  /** Otherwise the secret key and the session token may come from two versions
      of one Secret. */
  lemma RefetchSeesTwoVersions(c: SecurityCredentials) returns (stores: nat -> Store)
    requires Refetches(c)
    ensures ReadCredentials(stores, 0, c) != AsOutcome(Resolve(stores, 0, Fields(c)))
    ensures ReadCredentials(stores, 0, c).values.Some? && |ReadCredentials(stores, 0, c).values.value| == 3
    ensures Resolve(stores, 0, Fields(c)).Resolved? && |Resolve(stores, 0, Fields(c)).values| == 3
    ensures ReadCredentials(stores, 0, c).values.value[1] == "old" && ReadCredentials(stores, 0, c).values.value[2] == "new"
    ensures Resolve(stores, 0, Fields(c)).values[1] == "old" && Resolve(stores, 0, Fields(c)).values[2] == "old"
  {
    var k, t := c.secretAccessKey.fromSecret.value, c.sessionToken.fromSecret.value;
    var access := if c.accessKeyID.fromSecret.Some? then c.accessKeyID.fromSecret.value.name else "";
    var last := if c.accessKeyID.fromSecret.Some? then 2 else 1;
    var others: Store := map[access := map[]];
    stores := (i: nat) =>
      var v := if i < last then "old" else "new";
      others[k.name := map[k.key := v, t.key := v]];
    ResolveFields(stores, 0, c);
  }

  /** Credentials agrees with Get in every world exactly when it does not fetch
      the Secret of the secret key again. */
  lemma CredentialsIsGetExactlyWhen(c: SecurityCredentials)
    ensures !Refetches(c) <==>
            forall stores: nat -> Store :: ReadCredentials(stores, 0, c) == AsOutcome(Resolve(stores, 0, Fields(c)))
  {
    if Refetches(c) {
      var stores := RefetchSeesTwoVersions(c);
    } else {
      forall stores: nat -> Store
        ensures ReadCredentials(stores, 0, c) == AsOutcome(Resolve(stores, 0, Fields(c)))
      {
        CredentialsIsGet(stores, 0, c);
      }
    }
  }
}
