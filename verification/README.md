# Verified model of the TriggerMesh reconcilers and their helpers

This project models the parts of TriggerMesh that have state, interleavings or
exact text formats, and proves what they promise.

- **Adapter reconciler.** `Cluster` is one namespace as a state machine. Users
  create, edit and delete component instances, reconcilers take single API
  calls, and the garbage collector removes objects. What a cache returned is any
  copy that was ever stored, so every interleaving of any number of reconciles
  with caches as stale as can be is a run. Each object carries a UID, a version
  that the server checks on update, and owner references. `ClusterInvariant`,
  `ClusterSafety`, `ClusterDependents`, `ClusterCollection`, `ClusterAdapters` and
  `ClusterBuilt` prove safety over all runs; `ClusterCounterexamples` gives
  the runs on which stronger claims fail. `ApiServer`, `RbacObjects` and
  `Reconciler` are the mutable objects: every method of `Reconciler` is shown to
  be a run of the machine, and with fresh caches one of the functions of
  `Fixpoint`. `Convergence` puts two calls of `Reconcile` in a row: the second
  one looks up what the first one left and changes nothing that matters.
- **Adapter objects.** `AdapterBuilder` applies options to an object in place;
  `AdapterOptions` holds the option lists of the four builders;
  `AdapterAnatomy` writes out what they build field by field, and `AdapterAspects`
  and `AdapterAgreement` prove that it is found, selected and bound as the
  reconciler expects. `Semantic` is the derivative comparison, `Owners`
  the merge of owner references, `Components` names, labels and RBAC objects.
- **Cached file watcher.** `FileWatcher` is a machine with two locks, any number
  of calls of Add, one event loop and files that change at any moment.
  `FileWatcherSafety` and `FileWatcherProgress` prove freshness, the absence of
  deadlock and that the watcher comes to rest; `FileWatcherObjects` has the
  objects with their methods.
- **Smaller parts.** `AzureResourceId` and `GCloudResourceName` (parsing and
  printing), `StatusReason` (the message parser), `Ancestry` (the walk up the
  owners), `Secrets` (the two per-call caches), `EventTypes` (canonical lists).

## Findings

- The owners of a ServiceAccount are merged by kind and name. A reconcile that
  lists a deleted instance puts the old UID of its successor back, and the
  account of a live instance can then be collected
  (`ClusterCounterexamples.StaleListLosesLiveInstance`). A commit keeps every
  live owner exactly when no listed instance was re-created
  (`ClusterSafety.CommitKeepsHoldingsExactlyWhenListIsCurrent`).
- Current instance lists do not protect a RoleBinding. A slow reconcile of a
  deleted instance that syncs the binding by the account it went on with gives
  it a dead owner, and the binding of a live, reconciled instance can be
  collected (`ClusterCounterexamples.SlowSyncLosesBinding`). A commit keeps the
  owner of a binding exactly when it goes by the account that owns it already
  (`ClusterDependents.BindingCommitKeepsOwnerExactlyWhen`).
- A RoleBinding that was made for an externally managed ServiceAccount outlives
  all instances (`ClusterCounterexamples.ExternalAccountLeaksBinding`); what is
  left after a collection cascade is exactly the external accounts without
  owners and what they own (`ClusterCollection.CascadeLeavesExactlyUnowned`).
- A multi-tenant reconcile dereferences a nil account exactly when the lister has
  no instance left, for instance because the last one was deleted meanwhile
  (`Reconciler.Reconciler.ReconcileAdapter`,
  `ClusterCounterexamples.DeletedInstanceMeetsNoAccount`,
  `ClusterCounterexamples.NoAccountExactlyWhenNothingIsListed`).
- An override of a common label makes the reconciler lose sight of its adapter,
  and an override of the name or component label builds a Deployment that does
  not select its own Pods; both conditions are exact
  (`AdapterAgreement.InstanceAdapterIsFound`,
  `AdapterAgreement.DeploymentSelectsItsPods`,
  `AdapterAgreement.SharedDeploymentSelectsItsPods`). An adapter that is lost this way
  also has the name that the next reconcile tries to create
  (`ClusterAdapters.DisagreeingAdapterIsLost`).
- An adapter is written on every reconcile when the server adds a visibility
  label, or when an override states another value for an annotation that
  Knative owns (`Fixpoint.UpdatedAdapterIsEqual`). The account itself may be
  written again because its owners came out of a map in another order
  (`Fixpoint.AccountIsWrittenAgainExactlyWhen`).
- A Deployment that gets a second container is left with a nameless first one,
  because the default name is only given to a single container
  (`AdapterAnatomy.AddedContainer`).
- Where a second adapter of the same owner exists, for instance one that an
  older version made under another name, a reconcile writes whichever the lister
  yields first (`Convergence.SecondAdapterIsWritten`). It writes nothing in every
  order exactly when none of them is left to be written
  (`Convergence.StableInEveryOrderExactlyWhen`).
- Some Azure resource IDs print but do not reparse to themselves
  (`AzureResourceId.SubResourceWithoutResourceIsMisread`).
- `Credentials` may combine a secret key and a session token from two versions
  of one Secret, because it caches only the Secret of the access key
  (`Secrets.CredentialsIsGetExactlyWhen`).
- An S3 spec that selects the test event lists it twice
  (`EventTypes.S3ListIsDistinctExactlyWhen`).
- A path that is added twice to the file watcher is read twice per event
  (`FileWatcherProgress.OneCallbackPerAdd`).

## Model

| member | source | states |
|---|---|---|
| `ClusterInvariant.ReachableStatesSatisfyInv` | pkg/reconciler/reconcile.go:285-496 | after every run from the empty namespace: UIDs and versions identify copies, the owners of accounts are instances, managed accounts have at least one and one per kind and name, bindings and adapters are owned by an account or an instance |
| `ClusterInvariant.StepKeepsInv` | pkg/reconciler/reconcile.go:285-496 | every single step of a reconciler, a user or the collector keeps that invariant, however stale the cache it used |
| `ClusterInvariant.BindingsGrantTheirRoles` | pkg/reconciler/adapter.go:274-331 | every binding ever stored in a run has the name of the account that it binds, with or without "-config-watcher"; with it, it grants "triggermesh-config-watcher", without it the role of its own name; that account is its owner |
| `ClusterInvariant.PlannedUpdate` | pkg/reconciler/reconcile.go:371-410 | an update is only sent for a managed account, stays managed, carries the cached secrets and version and the merged owners, and takes labels and annotations from the cached copy when there is more than one owner, else from the desired one |
| `ClusterInvariant.UpdatesExactlyManagedAccounts` | pkg/reconciler/reconcile.go:371-379 | an update is sent if and only if the copies differ and the cached one is labelled as managed by the controller |
| `ClusterSafety.RunLosesNoOwner` | pkg/reconciler/reconcile.go:366-436 | over any run in which the collector leaves the account alone, no owner key is ever lost |
| `ClusterSafety.ReconcilerStepLosesNoOwner` | pkg/reconciler/reconcile.go:366-436 | no reconciler step removes an owner key from a stored account, from any stale copy |
| `ClusterSafety.ReconcilerWritesOnlyByUpdate` | pkg/reconciler/reconcile.go:379-412 | a stored account changes only by an accepted update of exactly the stored copy |
| `ClusterSafety.BindingsAreWrittenFromStoredCopy` | pkg/reconciler/reconcile.go:470-496 | a stored binding changes only by an update of exactly the stored copy and keeps its UID; no reconciler step removes one |
| `ClusterSafety.AdaptersAreWrittenFromStoredCopy` | pkg/reconciler/reconcile.go:138-275 | the same for the adapters |
| `ClusterSafety.ReconcilerRespectsAccounts` | pkg/reconciler/reconcile.go:371-410 | external accounts are never updated, managed ones stay managed, secrets never change, nor do labels and annotations while there is more than one owner |
| `ClusterSafety.RunRespectsAccounts` | pkg/reconciler/reconcile.go:371-410 | the same over any run of users, reconcilers and the collector in which nobody but the reconcilers edits or removes that account |
| `ClusterSafety.ManagedIsForLife` | pkg/reconciler/reconcile.go:375-379 | any two copies ever stored under one UID agree on being managed |
| `ClusterSafety.StepKeepsHeld` | pkg/reconciler/reconcile.go:366-436 | where the instance lists that reconcile an account are current, that managed account keeps holding each live instance that it was seen to hold by key and UID; lists of other accounts and of rejected updates do not matter |
| `ClusterSafety.CommitKeepsHoldingsExactlyWhenListIsCurrent` | pkg/reconciler/reconcile.go:425-436 | a commit keeps every live owner that was held if and only if no listed instance is an earlier incarnation of one |
| `ClusterDependents.NeverCollectedTooEarly` | pkg/reconciler/reconcile.go:285-338 | after any run whose instance lists are current when this account is reconciled from them, a live instance that was reconciled owns its managed account by key and UID, and the account and the adapters that it or the instance controls are stored and not collectible |
| `ClusterDependents.BindingCommitKeepsOwnerExactlyWhen` | pkg/reconciler/reconcile.go:470-496 | a committed binding sync keeps the owner of the stored binding if and only if the account it goes by has that owner's UID |
| `ClusterDependents.BindingsAreNeverCollectedTooEarly` | pkg/reconciler/reconcile.go:308-335 | after any run in which the syncs of an account's bindings go by the account that is stored when they commit, every binding whose account lives is stored, still owned by it and not collectible |
| `ClusterDependents.BindingsOfReconciledInstanceAreKept` | pkg/reconciler/reconcile.go:285-338 | both together: current lists for the account, and bindings synced by the stored account, keep the bindings of a live, reconciled instance |
| `ClusterDependents.CurrentRunKeepsSecure` | pkg/reconciler/reconcile.go:285-338 | the inductive invariant on one account and the adapters behind it, over every run whose lists for that account are current; bindings are not part of it |
| `ClusterCollection.CascadeIsBounded` | pkg/reconciler/reconcile.go:104-115 | a collection cascade is as long as the number of objects it removes, so it terminates |
| `ClusterCollection.CascadeLeavesExactlyUnowned` | pkg/reconciler/reconcile.go:289-303 | without instances, a cascade at rest leaves exactly the external accounts without owners and what they own |
| `ClusterCollection.NothingIsLeftOfOwnedAccounts` | pkg/reconciler/reconcile.go:104-115 | where every account is managed or has owners, nothing is left |
| `ClusterCounterexamples.StaleListLosesLiveInstance` | pkg/reconciler/reconcile.go:425-436 | a run with a stale list on which the account of a live, reconciled instance becomes collectible |
| `ClusterCounterexamples.SlowSyncLosesBinding` | pkg/reconciler/reconcile.go:308-335 | a run whose instance lists are all current on which the RoleBinding of a live, reconciled instance becomes collectible although its account lives |
| `ClusterCounterexamples.ExternalAccountLeaksBinding` | pkg/reconciler/reconcile.go:373-377 | a run after which no instance is left, nothing is collectible and a RoleBinding remains |
| `ClusterCounterexamples.DeletedInstanceMeetsNoAccount` | pkg/reconciler/reconcile.go:104-115 | a run after which a reconcile of a multi-tenant instance, with a current list, meets the nil account |
| `ClusterCounterexamples.NoAccountExactlyWhenNothingIsListed` | pkg/reconciler/reconcile.go:577-598 | in every reachable state a multi-tenant instance gets no account if and only if the lister has no instance |
| `ClusterBuilt.LivingOwnerHasExactlyOneAdapter` | pkg/reconciler/reconcile.go:600-661 | after any run from the empty namespace whose reconciles want built adapters, with caches as stale as can be: a living owner whose overrides agree has exactly one adapter once a reconcile was taken for it, and none before |
| `ClusterBuilt.BuiltAdaptersAreUnique` | pkg/reconciler/reconcile.go:600-623 | in any such run two stored adapters of one backend never have the same controller, whatever the overrides |
| `ClusterBuilt.StoredPodsRunAsOwnersAccount` | pkg/reconciler/adapter.go:149 | every adapter ever stored in such a run has the Pods' account of its owner: the owner itself when that is an account, else the one that a copy of the controlling instance asks for |
| `ClusterAdapters.RunLeavesOneAdapter` | pkg/reconciler/reconcile.go:600-661 | for adapters of any origin, over any run in which the steps for one owner go by its stored adapters and none of these is collected: the owner ends with max(1, previous count) adapters if a reconcile was taken for it, else with as many as before; nothing is asked of other owners |
| `ClusterAdapters.LivingInstanceHasOneAdapter` | pkg/reconciler/reconcile.go:600-661 | the same for an instance that lives and is not deleted, without a condition on the collector |
| `ClusterAdapters.LivingAccountHasOneAdapter` | pkg/reconciler/reconcile.go:104-115 | the same for the adapter that an account owns, where one of its reconciled instances lives on and the account is reconciled from current lists |
| `ClusterAdapters.BuiltIsFoundExactlyWhenAgreed` | pkg/reconciler/reconcile.go:625-661 | a step that wants a built adapter of either kind will find it again if and only if the overrides agree with the common labels |
| `ClusterAdapters.DisagreeingAdapterIsLost` | pkg/reconciler/adapter.go:166-170 | otherwise a created adapter of either kind does not count among those that its owner looks for, and creating it again is refused |
| `ClusterAdapters.PodRunsAsReturnedAccount` | pkg/reconciler/reconcile.go:300-338 | the Pod of a built adapter runs as the account that the RBAC reconciliation returned, in every reachable state |
| `Owners.MergeOwners` | pkg/reconciler/reconcile.go:425-436 | in whatever order the map is visited, the result lists each merged key once with its last reference |
| `Owners.MergeRefinesOverride` | pkg/reconciler/reconcile.go:425-436 | the merge is map override, for every order |
| `Owners.MergeKeepsDesired` | pkg/reconciler/reconcile.go:425-436 | desired references survive verbatim, so a re-created instance's new UID wins |
| `Owners.MergeKeepsOthers` | pkg/reconciler/reconcile.go:425-436 | a corollary: other current keys keep their last reference |
| `Owners.MergeAgainOnlyReorders` | pkg/reconciler/reconcile.go:425-436 | merging the same desired list again changes the order at most |
| `Objects.KeyTextIsInjective` | pkg/reconciler/reconcile.go:428-430 | the written key "kind/name" stands for one pair |
| `Reconciler.Reconciler.ServiceAccountOwners` | pkg/reconciler/reconcile.go:577-598 | the owners are the instance itself, or the listed instances sorted by name |
| `Reconciler.Reconciler.GetOrCreateAccount` | pkg/reconciler/reconcile.go:340-364 | the cached copy, or a created one, or an AlreadyExists error that changes nothing; a run of the machine |
| `Reconciler.Reconciler.CarryOver` | pkg/reconciler/reconcile.go:381-410 | the assignments in place produce the planned update for some order of the merged owners |
| `Reconciler.Reconciler.SyncAccount` | pkg/reconciler/reconcile.go:366-423 | new state and result, with NotFound and Conflict; one step of the machine |
| `Reconciler.Reconciler.GetOrCreateBinding` | pkg/reconciler/reconcile.go:444-468 | as for the account |
| `Reconciler.Reconciler.SyncBinding` | pkg/reconciler/reconcile.go:470-496 | nothing is sent when owners, role and subject are equal; new state and success condition; one step of the machine |
| `Reconciler.SyncedBindingGrants` | pkg/reconciler/reconcile.go:470-496 | nothing is sent if and only if the cached binding has the one owner, the role and the subject asked for; what is written has them |
| `Reconciler.Reconciler.ReconcileRbac` | pkg/reconciler/reconcile.go:285-338 | without owners nothing happens; otherwise a run of the machine, and with fresh caches exactly one fresh reconcile of the RBAC objects |
| `Reconciler.Reconciler.GetOrCreateAdapter` | pkg/reconciler/reconcile.go:600-623 | the first accepted cached adapter if there is one, else a created one or AlreadyExists |
| `Reconciler.Reconciler.PrepareUpdate` | pkg/reconciler/reconcile.go:258-263 | the two immutable Knative annotations and the version are taken over |
| `Reconciler.Reconciler.SyncAdapter` | pkg/reconciler/reconcile.go:138-161 | new state and success condition of both variants, one step of the machine; on success the returned adapter carries every value that the desired one sets |
| `Reconciler.Reconciler.PlaceAdapter` | pkg/reconciler/reconcile.go:104-133 | a multi-tenant adapter is handed over to the account, which is dereferenced although it may be nil |
| `Reconciler.Reconciler.ReconcileAdapter` | pkg/reconciler/reconcile.go:92-136 | a run of the machine; the account is nil exactly for a multi-tenant instance without listed owners; with fresh caches exactly one fresh reconcile, of the adapter that is looked up for the instance or for the account that was reconciled |
| `Reconciler.Reconciler.Reconcile` | pkg/reconciler/reconcile.go:62-90 | building the adapter, resolving the owners and reconciling both is a run of the machine; with fresh caches exactly one fresh reconcile of the built adapter |
| `Convergence.ReconcilingTwiceIsStable` | pkg/reconciler/reconcile.go:62-136 | after any run of reconciles that build their adapters: two calls of Reconcile with current caches and agreeing overrides, where the server adds no visibility; the second one finds the adapter that the first one left, writes no RoleBinding and no adapter, and leaves the account's UID, owner map, labels, annotations and secrets |
| `Convergence.SecondCallFinds` | pkg/reconciler/reconcile.go:625-661 | from any reachable state with at most one accepted adapter the second call finds what the first one created or synced, in whatever order the lister has the adapters |
| `Convergence.ReconcileLeavesOne` | pkg/reconciler/reconcile.go:600-661 | such a call leaves exactly one adapter that the lookup accepts, the one it created or synced |
| `Convergence.ReconcileDelivers` | pkg/reconciler/reconcile.go:92-136 | after such a call the stored adapter carries, field by field, every value that the built one sets: image, variables, secret references, ports, quantities, probe, account, tolerations, affinity, labels, annotations, selector, replicas and owner |
| `Convergence.StableInEveryOrderExactlyWhen` | pkg/reconciler/reconcile.go:138-161 | with any number of accepted adapters a reconcile writes none in every order of the lister if and only if each equals the desired one |
| `Convergence.SecondAdapterIsWritten` | pkg/reconciler/reconcile.go:143-146 | a family of runs after which two reconciles in a row both write an adapter, because an older one has another name and the lister another order |
| `Fixpoint.SecondReconcileIsStable` | pkg/reconciler/reconcile.go:285-496 | the step behind it: a second reconcile of the unchanged instance, given the adapter of the first one, writes no RoleBinding and no adapter, and leaves the account's UID, owner map, labels, annotations and secrets |
| `Fixpoint.RbacIsStable` | pkg/reconciler/reconcile.go:285-338 | the same for the RBAC objects alone |
| `Fixpoint.SettledStays` | pkg/reconciler/reconcile.go:366-412 | a settled account changes by the order of its owners and its version only |
| `Fixpoint.BindingIsWrittenOnce` | pkg/reconciler/reconcile.go:444-496 | a reconciled binding binds the account, is owned by it and grants the role asked for, and no other binding changed |
| `Fixpoint.UpdateDelivers` | pkg/reconciler/reconcile.go:244-275 | what the server stores for an update carries every desired value under the name of the cached copy, and keeps the creator and last modifier of a Knative Service |
| `Fixpoint.FreshAdapterDelivers` | pkg/reconciler/reconcile.go:600-623 | one create or sync with a current cache leaves a stored adapter that carries every desired value |
| `Fixpoint.UpdatedAdapterIsEqual` | pkg/reconciler/reconcile.go:244-275 | the stored copy of an update equals the desired adapter if and only if the server's defaults add no visibility and the desired adapter leaves the server's annotations |
| `Fixpoint.AdapterIsWrittenOnce` | pkg/reconciler/reconcile.go:138-161 | under that condition creating or syncing leaves nothing to write |
| `Fixpoint.AccountIsWrittenAgainExactlyWhen` | pkg/reconciler/reconcile.go:371-379 | a corollary: a managed account is not written exactly when its owners begin with the desired ones in order and its labels and annotations cover the desired ones |
| `Semantic.StoredCopyIsEqual` | pkg/reconciler/semantic/semantic.go:46-179 | an adapter equals the stored copy of itself, with any defaults filled in, if and only if they add no visibility |
| `Semantic.EqualIsTransitive` | pkg/reconciler/semantic/semantic.go:44-150 | a corollary: the comparison of adapters is transitive |
| `Semantic.EqualExactlyWhenCarried` | pkg/reconciler/semantic/semantic.go:116-150 | adapters are equal if and only if the current one carries each value that the desired one sets, written out field by field, and the visibilities agree |
| `Semantic.AccountEqualExactlyWhenCarried` | pkg/reconciler/semantic/semantic.go:156-179 | the same for accounts and the secrets that they list |
| `Semantic.ClearedSettingsAreSeen` | pkg/reconciler/semantic/semantic.go:94-113 | a corollary: a variable set to nothing and a visibility that is no longer asked for make adapters unequal |
| `Semantic.FilledContainerIsAbove` | pkg/reconciler/semantic/semantic.go:66-104 | a step of the above: a container is below itself with defaults filled in |
| `Semantic.EqualAccountsShareOwners` | pkg/reconciler/semantic/semantic.go:156-179 | a corollary: an equal account holds every desired owner |
| `AdapterLookup.FindAdapter` | pkg/reconciler/reconcile.go:625-661 | the first listed adapter with the labels and the controller's UID, or not found exactly when there is none |
| `AdapterLookup.AcceptsExactly` | pkg/reconciler/reconcile.go:625-661 | an adapter is accepted if and only if it has the listed labels with their values and its first controller has the owner's UID |
| `AdapterBuilder.AdapterObject.Apply` | pkg/reconciler/resource/podspecable.go:28-138 | each option changes the object in place as its value form says, which `AdapterAnatomy.OneMoreOption` spells out |
| `AdapterBuilder.AdapterObject.EnsureContainer` | pkg/reconciler/resource/container.go:289-303 | an empty container is injected when there is none |
| `AdapterBuilder.NewAdapterObject` | pkg/reconciler/resource/deployment.go:25-47 | applying the options one by one gives their fold, with the default name for a single nameless container |
| `AdapterBuilder.ToQuantity` | pkg/reconciler/adapter.go:419-433 | the CPU and memory quantities, for every order of iteration |
| `AdapterBuilder.AdapterOverrideOptions` | pkg/reconciler/adapter.go:372-417 | the options, in some order of each of the three maps |
| `AdapterBuilder.OverridesIgnoreOrder` | pkg/reconciler/adapter.go:372-417 | for every order of iteration the overridden adapter is the same |
| `AdapterOptions.CommonAdapterOptions` | pkg/reconciler/adapter.go:131-173 | the common options fold to the same adapter for every order of iteration |
| `AdapterOptions.NewAdapter` | pkg/reconciler/adapter.go:87-114 | the built single-tenant object does not depend on any order of iteration |
| `AdapterOptions.NewMTAdapter` | pkg/reconciler/adapter.go:116-129 | the same for the multi-tenant object |
| `AdapterAnatomy.InstanceAdapterIs` | pkg/reconciler/adapter.go:87-173 | every field of the built single-tenant object before the component's own options: its one container with the variables in order (common, overrides, NAMESPACE, NAME, K_SINK), ports, quantities and policy; labels, selector, owner, account and the overrides' settings |
| `AdapterAnatomy.SharedAdapterIs` | pkg/reconciler/adapter.go:116-173 | the same for the multi-tenant object |
| `AdapterAnatomy.OneMoreOption` | pkg/reconciler/resource/container.go:44-272 | what each option of the component's own adds to a built object of either kind, and that it changes nothing else |
| `AdapterAnatomy.AddedContainer` | pkg/reconciler/resource/podspecable.go:60-72 | an added container stands beside the first one of a Deployment, whose name then stays empty, and replaces the one of a Knative Service |
| `AdapterAnatomy.OverridesBlock` | pkg/reconciler/adapter.go:372-417 | all that overrides make of an object with one container |
| `AdapterAspects.LastWriteDecides` | pkg/reconciler/resource/object.go:59-105 | a label, selector entry or account name of a built object is what was last written to it |
| `AdapterAspects.CommonWrites` | pkg/reconciler/adapter.go:136-165 | what the common options of either kind write to each such aspect |
| `AdapterAgreement.InstanceAdapterIsFound` | pkg/reconciler/adapter.go:87-114 | a built adapter is found by its own instance if and only if the overrides agree with the common labels |
| `AdapterAgreement.SharedAdapterIsFound` | pkg/reconciler/adapter.go:116-129 | the same for a multi-tenant adapter that its account owns |
| `AdapterAgreement.InstanceAdapterOwner` | pkg/reconciler/adapter.go:98-110 | the instance is the one owner of its built adapter, and its controller |
| `AdapterAgreement.BuiltIdentity` | pkg/reconciler/resource/deployment.go:25-47 | a built object has the name and backend it was built for, and neither UID nor version |
| `AdapterAgreement.DeploymentSelectsItsPods` | pkg/reconciler/resource/deployment.go:47-63 | the Deployment built for one instance selects its own Pods if and only if the overrides leave the name and component labels |
| `AdapterAgreement.SharedDeploymentSelectsItsPods` | pkg/reconciler/adapter.go:116-129 | the same for a multi-tenant Deployment, whose selector has two keys |
| `AdapterAgreement.PodRunsAsReconciledAccount` | pkg/reconciler/adapter.go:149 | the Pod's account is the desired one, whichever owners that has |
| `Components.DesiredAccountShape` | pkg/reconciler/adapter.go:261-272 | a desired account is managed, has the given owners and the four common labels, no UID, no version and no secrets, whatever the type mutates |
| `Components.AccountOwnersFollowAuth` | pkg/reconciler/reconcile.go:577-598 | an account of its own is owned by the instance alone, a shared one by all listed instances in the order of their names |
| `Components.AccountNameIgnoresOwners` | pkg/reconciler/adapter.go:261-272 | name and annotations do not depend on the owners |
| `Components.SharedAccountIsTheSameForAll` | pkg/reconciler/adapter.go:69-85 | a corollary: instances that share an account want the same one |
| `Components.DesiredAccountFollowsAuth` | pkg/apis/common/v1alpha1/aws_types.go:99-137 | a chosen name wins over "{kind}-i-{name}", and that over "{kind}-adapter"; the newer role setting wins over the older one; which settings ask for an account of its own |
| `Components.AccountsAreSeparate` | pkg/reconciler/adapter.go:69-85 | without chosen names two instances get one account only if they share it or are the same component's instance of one name |
| `Components.DedicatedNamesAreInjective` | pkg/reconciler/adapter.go:69-85 | a dedicated account name identifies the component and the instance |
| `Components.DedicatedNamesAreNeverShared` | pkg/reconciler/adapter.go:72-84 | it never is a shared name, not even for an instance called "adapter" |
| `Components.BindingNamesAreSeparate` | pkg/reconciler/adapter.go:274-290 | the two kinds of RoleBinding never share a name |
| `Components.ConfigWatcherNamesAreInjective` | pkg/reconciler/adapter.go:276-280 | a config watcher binding's name tells its account |
| `Components.SortByNameSorts` | pkg/reconciler/reconcile.go:593-596 | the owners are sorted by name, and none is lost or added |
| `Components.SortByNameIsStable` | pkg/reconciler/reconcile.go:593-596 | owners of one name keep their order |
| `Components.ListingOrderIsInvisible` | pkg/reconciler/reconcile.go:592-597 | whatever order the lister returns the instances in, the owners come out the same |
| `Sorting.LessIsLexicographic` | pkg/reconciler/reconcile.go:593-596 | names are compared by their first difference, and a prefix comes first |
| `RbacObjects.NewServiceAccount` | pkg/reconciler/adapter.go:261-272 | mutating the object option by option gives the desired account |
| `RbacObjects.NewRoleBinding` | pkg/reconciler/adapter.go:274-331 | "{account}-config-watcher" grants "triggermesh-config-watcher", "{kind}-adapter" grants the role of that name; the account is the subject and the one owner |
| `AzureResourceId.AzureResourceID.UnmarshalJSON` | pkg/apis/sources/v1alpha1/azure_common_types.go:101-200 | the branches set the receiver to the parsed value, and an error leaves it as it was |
| `AzureResourceId.AzureResourceID.MarshalJSON` | pkg/apis/sources/v1alpha1/azure_common_types.go:202-259 | writing to the buffer step by step gives "/subscriptions/{s}/resourceGroups/{g}/providers/{p}/namespaces/{n}/{t}/{name}" and so on, each part where it is set, or an error |
| `AzureResourceId.AzureResourceID.String` | pkg/apis/sources/v1alpha1/azure_common_types.go:261-271 | that text, or nothing |
| `AzureResourceId.PrintsAsWritten` | pkg/apis/sources/v1alpha1/azure_common_types.go:202-259 | the printed text with its keywords, and exactly which values do not print |
| `AzureResourceId.ReadsPieces` | pkg/apis/sources/v1alpha1/azure_common_types.go:101-200 | which piece of an accepted text each field holds |
| `AzureResourceId.RejectsPieces` | pkg/apis/sources/v1alpha1/azure_common_types.go:101-200 | which numbers of pieces are rejected, and which empty pieces |
| `AzureResourceId.RoundTripExactlyWhenWellFormed` | pkg/apis/sources/v1alpha1/azure_common_types.go:101-259 | printing and reparsing gives the same value if and only if it is well formed |
| `AzureResourceId.AcceptedTextHasNormalForm` | pkg/apis/sources/v1alpha1/azure_common_types.go:101-271 | every accepted text prints to a normal form that denotes the same value |
| `AzureResourceId.ParseYieldsWellFormed` | pkg/apis/sources/v1alpha1/azure_common_types.go:109-200 | whatever is accepted denotes a well-formed value |
| `AzureResourceId.SubResourceWithoutResourceIsMisread` | pkg/apis/sources/v1alpha1/azure_common_types.go:202-259 | a family of values that print but reparse as others |
| `GCloudResourceName.GCloudResourceNameObject.UnmarshalJSON` | pkg/apis/sources/v1alpha1/googlecloud_common_types.go:52-83 | the receiver becomes the parsed value or stays as it was |
| `GCloudResourceName.GCloudResourceNameObject.MarshalJSON` | pkg/apis/sources/v1alpha1/googlecloud_common_types.go:85-104 | "projects/{project}/{collection}/{resource}", or an error |
| `GCloudResourceName.PrintsAsWritten` | pkg/apis/sources/v1alpha1/googlecloud_common_types.go:85-104 | the text for every printable value, and that the others are errors |
| `GCloudResourceName.ReadsPieces` | pkg/apis/sources/v1alpha1/googlecloud_common_types.go:52-83 | the value or the error for every text, by its pieces |
| `GCloudResourceName.RoundTripExactlyWhenWellFormed` | pkg/apis/sources/v1alpha1/googlecloud_common_types.go:52-104 | the exact round-trip domain |
| `GCloudResourceName.AcceptedTextHasNormalForm` | pkg/apis/sources/v1alpha1/googlecloud_common_types.go:52-104 | every accepted text has a normal form with the same meaning |
| `FileWatcherSafety.StepKeepsInv` | pkg/adapter/fs/filewatcher_cached.go:69-107 | every step of a call, the loop or the environment keeps the invariant on locks, maps and freshness |
| `FileWatcherSafety.StaleContentIsPending` | pkg/adapter/fs/filewatcher_cached.go:69-107 | stale content of a readable file has an event pending, a callback to run, or the current content about to be stored |
| `FileWatcherSafety.QuiescentCacheIsCurrent` | pkg/adapter/fs/filewatcher_cached.go:69-120 | with no event outstanding, what GetContent returns for a readable file is its content |
| `FileWatcherSafety.LookupFindsCallbacks` | pkg/adapter/fs/filewatcher.go:62-101 | the loop finds a callback for every event, even one between watch registration and map insertion |
| `FileWatcherSafety.ReturnedPathStaysWatched` | pkg/adapter/fs/filewatcher_cached.go:88-120 | once Add returned nil, GetContent never again reports the path as not watched |
| `FileWatcherSafety.LocksAreTakenInOrder` | pkg/adapter/fs/filewatcher_cached.go:79-107 | a corollary: nobody takes the watcher's lock while holding the cache's |
| `FileWatcherSafety.NoDeadlock` | pkg/adapter/fs/filewatcher.go:62-105 | in every reachable state someone can move exactly when a call is unfinished or an event is left, even when waiting writers keep readers out |
| `FileWatcherProgress.ComesToRestWithCurrentCache` | pkg/adapter/fs/filewatcher.go:79-117 | once files and calls stop, the watcher rests after a bounded number of steps under any scheduling, every call finished and every added readable path current |
| `FileWatcherProgress.OneCallbackPerAdd` | pkg/adapter/fs/filewatcher.go:62-77 | the callbacks of a path are the calls of Add that came through |
| `FileWatcherObjects.Watcher.Add` | pkg/adapter/fs/filewatcher.go:62-77 | the new map and watches, and when Add fails |
| `FileWatcherObjects.CachedWatcher.UpdateContentFromFile` | pkg/adapter/fs/filewatcher_cached.go:69-77 | a readable file replaces the cached content, an unreadable one leaves it |
| `FileWatcherObjects.CachedWatcher.Add` | pkg/adapter/fs/filewatcher_cached.go:88-108 | the whole new state; only the first Add reads the file, and an unreadable one is stored as nil |
| `FileWatcherObjects.CachedWatcher.Handle` | pkg/adapter/fs/filewatcher.go:92-101 | one turn of the loop runs every callback of the path |
| `FileWatcherObjects.CachedWatcher.GetContent` | pkg/adapter/fs/filewatcher_cached.go:110-120 | the content, or not watched |
| `FileWatcherObjects.AddAlone` | pkg/adapter/fs/filewatcher_cached.go:88-108 | the machine's steps of an undisturbed Add reach the state that the method leaves |
| `FileWatcherObjects.HandleAlone` | pkg/adapter/fs/filewatcher.go:92-101 | the same for a turn of the loop |
| `StatusReason.IsResourceMissingError` | pkg/status/status.go:137-213 | the loops compute the missing type, with every index in range |
| `StatusReason.RecognisesExactlyMissingMessages` | pkg/status/status.go:137-213 | a type is reported if and only if the message has the described shape, and it is the capitalised word |
| `StatusReason.ExactReasonsAre` | pkg/status/status.go:90-126 | the result for every reason and message, with the reasons listed |
| `StatusReason.MissingSecretIsTold` | pkg/status/status.go:137-213 | a message that a Secret is missing gives "MissingSecret" |
| `StatusReason.ContainsIsInfix` | pkg/status/status.go:107-126 | a message contains a text if and only if it is some text before, that text and some text after it |
| `StatusReason.LettersAreLetters` | pkg/status/status.go:137-213 | the characters that a type may consist of are the 52 letters |
| `StatusReason.ExactReasonIsIdempotent` | pkg/status/status.go:90-104 | an unknown reason is kept and an exact one stays what it is |
| `StatusReason.FamiliesMeetInFailedRevisions` | pkg/status/status.go:90-126 | a corollary: the order of the tests matters for failed revisions only |
| `Ancestry.AncestorIsAnswerOfChain` | pkg/reconciler/base.go:316-353 | on acyclic controllers the walk terminates, and its result is that of the chain of controllers that cannot be continued |
| `Ancestry.AncestorIgnoresHeights` | pkg/reconciler/base.go:316-353 | the measure that shows that the walk ends does not matter: the answer depends on the objects alone |
| `Ancestry.WalkedKinds` | pkg/reconciler/base.go:333-342 | the walk goes on through ReplicaSets and Deployments only |
| `Ancestry.PodOfDeployment` | pkg/reconciler/base.go:316-353 | a Pod of a ReplicaSet of a Deployment has the controller of the Deployment as its ancestor, or the Deployment |
| `Ancestry.PodWithoutController` | pkg/reconciler/base.go:316-353 | a Pod without a controller, or with one that is not listed, has no ancestor |
| `Ancestry.GroupVersionsAre` | pkg/reconciler/base.go:345-353 | how an API version is read as group and version |
| `Ancestry.HandlerEnqueuesWhatFilterMatched` | pkg/reconciler/base.go:300-376 | the filter passes if and only if the ancestor has the kind and version asked for, and the handler then enqueues the very reference that was matched |
| `Secrets.Get` | pkg/sources/secret/secret.go:58-90 | the values, or the failure, and the calls made, over a store that changes between calls |
| `Secrets.OneSnapshotPerSecret` | pkg/sources/secret/secret.go:56-90 | one value per reference in order, all from one snapshot of each Secret |
| `Secrets.EachSecretIsFetchedOnce` | pkg/sources/secret/secret.go:63-83 | each Secret is fetched at most once and the snapshots are what the client read |
| `Secrets.CacheIsInvisible` | pkg/sources/secret/secret.go:58-90 | over a fixed store the result is that of uncached lookups |
| `Secrets.Credentials` | pkg/sources/aws/creds.go:32-95 | the three values, or the failure, and the calls made |
| `Secrets.CredentialsIsGetOverFixedStore` | pkg/sources/aws/creds.go:32-95 | over a fixed store Credentials is Get on its three fields |
| `Secrets.CredentialsIsGetExactlyWhen` | pkg/sources/aws/creds.go:40-88 | over changing stores it is so if and only if no Secret is fetched again |
| `Secrets.RefetchSeesTwoVersions` | pkg/sources/aws/creds.go:57-88 | otherwise it may return values of two versions of one Secret |
| `EventTypes.S3EventTypes` | pkg/apis/sources/v1alpha1/awss3_lifecycle.go:86-107 | the sorted list of the normalised types and one test event, for every order of iteration |
| `EventTypes.S3ListIsCanonical` | pkg/apis/sources/v1alpha1/awss3_lifecycle.go:86-107 | two specs give equal lists if and only if they select the same normalised types |
| `EventTypes.S3ListIsDistinctExactlyWhen` | pkg/apis/sources/v1alpha1/awss3_lifecycle.go:86-107 | no duplicates if and only if the spec does not select the test event |
| `EventTypes.TestEventCanBeListedTwice` | pkg/apis/sources/v1alpha1/awss3_lifecycle.go:94-101 | a spec that selects it lists it twice |
| `EventTypes.PlainTypeNormalises` | pkg/apis/sources/v1alpha1/awss3_lifecycle.go:109-117 | the prefix is dropped if it is there, and the case lowered |
| `EventTypes.FirstElementNormalises` | pkg/apis/sources/v1alpha1/awss3_lifecycle.go:109-117 | of "s3:{type}:{rest}" and "{type}:{rest}" the type is left, in lower case |
| `EventTypes.S3ListHolds` | pkg/apis/sources/v1alpha1/awss3_lifecycle.go:86-107 | the list holds "com.amazon.{service}.{type}" for each normalised type and for the test event, and nothing else |
| `EventTypes.ObjectCreatedNormalises` | pkg/apis/sources/v1alpha1/awss3_lifecycle.go:109-117 | "s3:ObjectCreated:*" gives "objectcreated" |
| `Text.LettersChangeCase` | pkg/reconciler/adapter.go:59-61 | lower and upper case letter by letter; all else stays |
| `EventTypes.BlobEventTypes` | pkg/apis/sources/v1alpha1/azureblobstorage_lifecycle.go:76-98 | the default pair for an unset list, else the sorted distinct types |
| `EventTypes.GridEventTypes` | pkg/apis/sources/v1alpha1/azureeventgrid_lifecycle.go:64-86 | nil for an empty list, else the sorted distinct types |
| `EventTypes.SortedSetIsCanonical` | pkg/apis/sources/v1alpha1/azureblobstorage_lifecycle.go:82-98 | no duplicates, and equal lists if and only if equal selections |
| `EventTypes.DefaultPairIsCanonical` | pkg/apis/sources/v1alpha1/azureblobstorage_lifecycle.go:100-107 | the default pair is sorted and distinct as well |

## Left out

- ClusterDependents.NeverCollectedTooEarly: asks that the instance lists from which this account is reconciled are current when the step takes effect, because without that it is false of the code (see Findings).
- ClusterDependents.BindingsAreNeverCollectedTooEarly: asks that the syncs of an account's bindings go by the account that is stored when they commit, because without that it is false of the code (see Findings).
- ClusterBuilt.LivingOwnerHasExactlyOneAdapter: asks that the overrides of the owner's instances agree with the common labels, because an adapter is lost otherwise (see Findings), and that adapters are built by this version.
- ClusterAdapters.RunLeavesOneAdapter: asks that the steps of the owner in question go by its stored adapters, since adapters of any name are allowed there; a creation from a stale cache adds a second one.
- Convergence.ReconcilingTwiceIsStable: asks for agreeing overrides and no added visibility or changed server annotations, because an adapter is lost or written again otherwise (see Findings).
- StatusReason.IsResourceMissingError: messages are ASCII; the source mixes byte indexes with runes beyond that.
- Components.DedicatedNamesAreInjective: names are concatenated; the hashing of names that are too long is not part of this model.
- FileWatcherSafety.QuiescentCacheIsCurrent: the notifier delivers an event for every change to a watched path and keeps the watch; lost events and watches that end with a removed file are not modelled, and a file is read in one step.
- AzureResourceId.RoundTripExactlyWhenWellFormed: works on the text between the JSON quotes; JSON escaping is not part of this model.
- One namespace and one cluster; cluster-scoped objects are not modelled.
- Users edit instances and the secrets of accounts and create external accounts, owned by instances or by nothing; they do not edit managed labels, owners, bindings or adapters.
- Events, status conditions, sink resolution, URLs, metrics and logging of a reconcile.
- Errors of the API other than AlreadyExists, NotFound and Conflict, and errors of listers, which end a reconcile without a write.
- `DeploymentPodsWaitingState` and the resync of objects in a namespace, which are filters over lists.
- Volumes, mounts, commands, start-up probes and the pod's other fields, which no property speaks about; only the fields of `Objects` are compared.
- The reflection behind the semantic comparison: its documented derivative order is written out on the modelled fields.
- Removing owners that are gone from an account is a step of the collector that keeps the live ones.
- The stop of the watcher's loop on a closed channel or a done context, and its error channel.
- Validation of specs, ARNs and durations, and the tables of the other source types, which are constants and getters.
