/** What every reachable state of the file watcher satisfies: who holds the
    locks, which paths have callbacks, and that the cache is up to date or an
    update is still to come. */
module FileWatcherSafety {
  import opened Wrappers
  import opened FileWatcher

  // -------------------------------------------------------------------- locks

  predicate HoldsWatcher(c: Call)
  {
    c.Checking? || c.Registered? || c.Inserted? || c.Refused?
  }

  predicate HoldsCache(c: Call)
  {
    c.InCache? || c.HasRead? || c.Stored?
  }

  predicate LoopReads(l: Loop)
  {
    !l.Idle? && !l.Received?
  }

  predicate LoopHoldsCache(l: Loop)
  {
    l.InCallback? || l.CallbackRead? || l.CallbackDone?
  }

  ghost predicate WatcherLockOk(s: State)
  {
    && (forall t :: 0 <= t < |s.calls| ==> (HoldsWatcher(s.calls[t]) <==> s.watcherLock == Writer(t)))
    && (s.watcherLock.Writer? ==> s.watcherLock.call < |s.calls|)
    && (s.watcherLock.Reader? <==> LoopReads(s.loop))
  }

  ghost predicate CacheLockOk(s: State)
  {
    && (forall t :: 0 <= t < |s.calls| ==> (HoldsCache(s.calls[t]) <==> s.cacheLock == ByCall(t)))
    && (s.cacheLock.ByCall? ==> s.cacheLock.call < |s.calls|)
    && (s.cacheLock.ByLoop? <==> LoopHoldsCache(s.loop))
    && (LoopHoldsCache(s.loop) ==> s.loop.left > 0)
  }

  ghost predicate LocksOk(s: State)
  {
    WatcherLockOk(s) && CacheLockOk(s)
  }

  // --------------------------------------------------------------------- maps

  /** The callback of this call is in the map. */
  predicate Past(c: Call)
  {
    c.Inserted? || c.WaitingForCache? || c.InCache? || c.HasRead? || c.Stored? || c.Returned?
  }

  /** Every watched path has callbacks, but for one that a call is about to
      insert. */
  ghost predicate WatchesOk(s: State)
  {
    && (forall p :: p in s.callbacks ==> p in s.watches && s.callbacks[p] > 0)
    && (forall p :: p in s.watches && p !in s.callbacks ==>
          s.watcherLock.Writer? && s.watcherLock.call < |s.calls| && s.calls[s.watcherLock.call] == Registered(p))
    && (forall t :: 0 <= t < |s.calls| && s.calls[t].Registered? ==>
          s.calls[t].path in s.watches && s.calls[t].path !in s.callbacks)
  }

  ghost predicate PathsOk(s: State)
  {
    && (forall t :: 0 <= t < |s.calls| && Past(s.calls[t]) ==> s.calls[t].path in s.callbacks)
    && (forall t :: 0 <= t < |s.calls| && (s.calls[t].Stored? || s.calls[t].Returned?) ==> s.calls[t].path in s.cache)
    && (forall p :: p in s.cache ==> p in s.watches)
    && (forall p :: p in s.events ==> p in s.watches)
    && (!s.loop.Idle? ==> s.loop.path in s.watches)
  }

  ghost predicate MapsOk(s: State)
  {
    WatchesOk(s) && PathsOk(s)
  }

  // ------------------------------------------------------------------ freshness

  /** The loop is going to read `p` again. */
  predicate LoopWillRead(l: Loop, p: Path)
  {
    match l
    case Idle => false
    case Received(q) => q == p
    case Locked(q) => q == p
    case Calling(q, n) => q == p && n > 0
    case InCallback(q, _) => q == p
    case CallbackRead(q, n, _) => q == p && n > 1
    case CallbackDone(q, n) => q == p && n > 1
  }

  predicate Pending(s: State, p: Path)
  {
    p in s.events || LoopWillRead(s.loop, p)
  }

  predicate Stale(s: State, p: Path, c: Option<Content>)
  {
    p in s.files && c != Some(s.files[p])
  }

  ghost predicate CacheOk(s: State)
  {
    forall p :: p in s.cache && Stale(s, p, s.cache[p]) ==>
                  Pending(s, p) || (s.loop.CallbackRead? && s.loop.path == p && s.loop.content == s.files[p])
  }

  ghost predicate ReadsOk(s: State)
  {
    && (forall t :: 0 <= t < |s.calls| && s.calls[t].HasRead? && Stale(s, s.calls[t].path, s.calls[t].content) ==>
          Pending(s, s.calls[t].path))
    && (s.loop.CallbackRead? && Stale(s, s.loop.path, Some(s.loop.content)) ==> Pending(s, s.loop.path))
  }

  ghost predicate Inv(s: State)
  {
    LocksOk(s) && MapsOk(s) && CacheOk(s) && ReadsOk(s)
  }

  // --------------------------------------------------------------- preservation

  lemma ChangeKeepsInv(s: State, p: Path, c: Option<Content>)
    requires Inv(s)
    ensures Inv(Change(s, p, c))
  {
    var s' := Change(s, p, c);
    forall q | Pending(s, q)
      ensures Pending(s', q)
    {
    }
    assert p in s.watches ==> s'.events[|s.events|] == p;
    assert p in s.cache ==> Pending(s', p);
  }

  lemma CallAddKeepsInv(s: State, p: Path)
    requires Inv(s)
    ensures Inv(CallAdd(s, p))
  {
  }

  predicate OnWatcherSide(c: Call)
  {
    c.Waiting? || HoldsWatcher(c)
  }

  lemma CallStepKeepsWatcherLock(s: State, t: nat, refuse: bool)
    requires WatcherLockOk(s) && CanCall(s, t)
    ensures WatcherLockOk(CallStep(s, t, refuse))
  {
    var s' := CallStep(s, t, refuse);
    forall u | 0 <= u < |s.calls|
      ensures HoldsWatcher(s'.calls[u]) <==> s'.watcherLock == Writer(u)
    {
      assert u != t ==> s'.calls[u] == s.calls[u];
    }
  }

  lemma CallStepKeepsCacheLock(s: State, t: nat, refuse: bool)
    requires CacheLockOk(s) && CanCall(s, t)
    ensures CacheLockOk(CallStep(s, t, refuse))
  {
    var s' := CallStep(s, t, refuse);
    forall u | 0 <= u < |s.calls|
      ensures HoldsCache(s'.calls[u]) <==> s'.cacheLock == ByCall(u)
    {
      assert u != t ==> s'.calls[u] == s.calls[u];
    }
  }

  lemma CallStepKeepsWatches(s: State, t: nat, refuse: bool)
    requires WatcherLockOk(s) && WatchesOk(s) && CanCall(s, t)
    ensures WatchesOk(CallStep(s, t, refuse))
  {
    if OnWatcherSide(s.calls[t]) {
      WatcherStepKeepsWatches(s, t, refuse);
    }
  }

  lemma WatcherStepKeepsWatches(s: State, t: nat, refuse: bool)
    requires WatcherLockOk(s) && WatchesOk(s) && CanCall(s, t) && OnWatcherSide(s.calls[t])
    ensures WatchesOk(CallStep(s, t, refuse))
  {
    CallStepKeepsWatcherLock(s, t, refuse);
    var s' := CallStep(s, t, refuse);
    assert forall u :: 0 <= u < |s.calls| && HoldsWatcher(s'.calls[u]) ==> u == t;
  }

  lemma CallStepGrowsMaps(s: State, t: nat, refuse: bool)
    requires CanCall(s, t)
    ensures var s' := CallStep(s, t, refuse);
            s.watches <= s'.watches && s.callbacks.Keys <= s'.callbacks.Keys && s.cache.Keys <= s'.cache.Keys
  {
  }

  lemma CallStepMovesOne(s: State, t: nat, refuse: bool)
    requires CanCall(s, t)
    ensures CallStep(s, t, refuse).calls == s.calls[t := CallStep(s, t, refuse).calls[t]]
  {
  }

  lemma MovedCallHasCallback(s: State, t: nat, refuse: bool)
    requires CanCall(s, t) && (Past(s.calls[t]) ==> s.calls[t].path in s.callbacks)
    ensures var s' := CallStep(s, t, refuse);
            t < |s'.calls| && (Past(s'.calls[t]) ==> s'.calls[t].path in s'.callbacks)
  {
    var c := s.calls[t];
    if c.Checking? || c.Registered? || c.Inserted? {
    } else if c.InCache? || c.HasRead? || c.Stored? {
    } else {
      assert c.Waiting? || c.Refused? || c.WaitingForCache?;
    }
  }

  lemma MovedCallIsCached(s: State, t: nat, refuse: bool)
    requires CanCall(s, t) && (s.calls[t].Stored? ==> s.calls[t].path in s.cache)
    ensures var s' := CallStep(s, t, refuse);
            t < |s'.calls| && (s'.calls[t].Stored? || s'.calls[t].Returned? ==> s'.calls[t].path in s'.cache)
  {
    var c := s.calls[t];
    if c.Checking? || c.Registered? || c.Inserted? {
    } else if c.InCache? || c.HasRead? || c.Stored? {
    } else {
      assert c.Waiting? || c.Refused? || c.WaitingForCache?;
    }
  }

  lemma CallStepKeepsWatchedPaths(s: State, t: nat, refuse: bool)
    requires LocksOk(s) && MapsOk(s) && CanCall(s, t)
    ensures var s' := CallStep(s, t, refuse);
            && (forall p :: p in s'.cache ==> p in s'.watches) && s'.events == s.events && s'.loop == s.loop
  {
  }

  lemma PathsStay(s: State, s': State, t: nat)
    requires PathsOk(s) && t < |s.calls| == |s'.calls|
    requires s.watches <= s'.watches && s.callbacks.Keys <= s'.callbacks.Keys && s.cache.Keys <= s'.cache.Keys
    requires forall u :: 0 <= u < |s.calls| && u != t ==> s'.calls[u] == s.calls[u]
    requires Past(s'.calls[t]) ==> s'.calls[t].path in s'.callbacks
    requires s'.calls[t].Stored? || s'.calls[t].Returned? ==> s'.calls[t].path in s'.cache
    requires (forall p :: p in s'.cache ==> p in s'.watches) && s'.events == s.events && s'.loop == s.loop
    ensures PathsOk(s')
  {
  }

  lemma CallStepKeepsPaths(s: State, t: nat, refuse: bool)
    requires LocksOk(s) && MapsOk(s) && CanCall(s, t)
    ensures PathsOk(CallStep(s, t, refuse))
  {
    var s' := CallStep(s, t, refuse);
    CallStepGrowsMaps(s, t, refuse);
    CallStepMovesOne(s, t, refuse);
    CallStepKeepsWatchedPaths(s, t, refuse);
    MovedCallHasCallback(s, t, refuse);
    MovedCallIsCached(s, t, refuse);
    PathsStay(s, s', t);
  }

  lemma CallStepKeepsCacheFresh(s: State, t: nat, refuse: bool)
    requires Inv(s) && CanCall(s, t)
    ensures CacheOk(CallStep(s, t, refuse))
  {
  }

  lemma CallStepKeepsReadsFresh(s: State, t: nat, refuse: bool)
    requires Inv(s) && CanCall(s, t)
    ensures ReadsOk(CallStep(s, t, refuse))
  {
  }

  lemma LoopStepKeepsLocks(s: State)
    requires LocksOk(s) && CanLoop(s, false)
    ensures LocksOk(LoopStep(s))
  {
  }

  lemma LoopStepKeepsMaps(s: State)
    requires LocksOk(s) && MapsOk(s) && CanLoop(s, false)
    ensures MapsOk(LoopStep(s))
  {
  }

  lemma LoopStepKeepsFresh(s: State)
    requires Inv(s) && CanLoop(s, false)
    ensures CacheOk(LoopStep(s)) && ReadsOk(LoopStep(s))
  {
  }

  lemma CallStepKeepsInv(s: State, t: nat, refuse: bool)
    requires Inv(s) && CanCall(s, t)
    ensures Inv(CallStep(s, t, refuse))
  {
    CallStepKeepsWatcherLock(s, t, refuse);
    CallStepKeepsCacheLock(s, t, refuse);
    CallStepKeepsWatches(s, t, refuse);
    CallStepKeepsPaths(s, t, refuse);
    CallStepKeepsCacheFresh(s, t, refuse);
    CallStepKeepsReadsFresh(s, t, refuse);
  }

  lemma StepKeepsInv(s: State, e: Step)
    requires Inv(s) && Enabled(s, e)
    ensures Inv(Apply(s, e))
  {
    if e.FileChanges? {
      ChangeKeepsInv(s, e.path, e.content);
    } else if e.AddIsCalled? {
      CallAddKeepsInv(s, e.path);
    } else if e.CallMoves? {
      CallStepKeepsInv(s, e.call, e.refuse);
    } else {
      LoopStepKeepsLocks(s);
      LoopStepKeepsMaps(s);
      LoopStepKeepsFresh(s);
    }
  }

  lemma {:induction false} RunKeepsInv(s: State, steps: seq<Step>)
    requires Inv(s) && IsRun(s, steps)
    ensures Inv(After(s, steps))
    decreases |steps|
  {
    if steps != [] {
      StepKeepsInv(s, steps[0]);
      RunKeepsInv(Apply(s, steps[0]), steps[1..]);
    }
  }

  lemma ReachableSatisfiesInv(s: State, steps: seq<Step>)
    requires Initial(s) && IsRun(s, steps)
    ensures Inv(After(s, steps))
  {
    RunKeepsInv(s, steps);
  }

  // ------------------------------------------------------------------ theorems

  /** In every interleaving: when the cached content of a readable file is not
      that of the file, an event for it is pending, or the loop still has to
      read it, or is about to store what the file holds. */
  lemma StaleContentIsPending(s: State, steps: seq<Step>, p: Path)
    requires Initial(s) && IsRun(s, steps)
    ensures var t := After(s, steps);
            p in t.cache && Stale(t, p, t.cache[p]) ==>
              Pending(t, p) || (t.loop.CallbackRead? && t.loop.path == p && t.loop.content == t.files[p])
  {
    ReachableSatisfiesInv(s, steps);
  }

  /** With no event outstanding the cache agrees with every readable file. */
  lemma QuiescentCacheIsCurrent(s: State, steps: seq<Step>, p: Path)
    requires Initial(s) && IsRun(s, steps)
    requires After(s, steps).events == [] && After(s, steps).loop.Idle?
    requires p in After(s, steps).files && GetContent(After(s, steps), p).Success?
    ensures GetContent(After(s, steps), p) == Success(Some(After(s, steps).files[p]))
  {
    ReachableSatisfiesInv(s, steps);
  }

  /** The loop never misses a callback: when it looks a path up, the callback
      is there, even if the event came between the registration of the watch
      and the insertion. */
  lemma LookupFindsCallbacks(s: State, steps: seq<Step>)
    requires Initial(s) && IsRun(s, steps) && After(s, steps).loop.Locked?
    ensures var t := After(s, steps); t.loop.path in t.callbacks && t.callbacks[t.loop.path] > 0
  {
    ReachableSatisfiesInv(s, steps);
  }

  lemma {:induction false} CacheDomainGrows(s: State, steps: seq<Step>)
    requires IsRun(s, steps)
    ensures s.cache.Keys <= After(s, steps).cache.Keys
    decreases |steps|
  {
    if steps != [] {
      CacheDomainGrows(Apply(s, steps[0]), steps[1..]);
    }
  }

  /** Once Add returned nil for a path, it is watched for good. */
  lemma ReturnedPathStaysWatched(s: State, first: seq<Step>, second: seq<Step>, c: nat)
    requires Initial(s) && IsRun(s, first) && IsRun(After(s, first), second)
    requires c < |After(s, first).calls| && After(s, first).calls[c].Returned?
    ensures GetContent(After(After(s, first), second), After(s, first).calls[c].path).Success?
  {
    ReachableSatisfiesInv(s, first);
    CacheDomainGrows(After(s, first), second);
    assert After(s, first).calls[c].path in After(s, first).cache.Keys;
  }

  /** Whoever takes the watcher's lock does not hold the cache's: the locks are
      always taken in the same order. */
  lemma LocksAreTakenInOrder(s: State, steps: seq<Step>, e: Step)
    requires Initial(s) && IsRun(s, steps) && Enabled(After(s, steps), e)
    ensures var t, u := After(s, steps), Apply(After(s, steps), e);
            && (t.watcherLock != u.watcherLock && u.watcherLock.Writer? ==> t.cacheLock != ByCall(u.watcherLock.call))
            && (t.watcherLock != u.watcherLock && u.watcherLock.Reader? ==> !t.cacheLock.ByLoop?)
  {
    ReachableSatisfiesInv(s, steps);
  }

  // ------------------------------------------------------------------ progress

  predicate Finished(c: Call)
  {
    c.Returned? || c.Failed?
  }

  /** Some call of Add or the loop can move. */
  ghost predicate SomeoneCanMove(s: State)
  {
    CanLoop(s, true) || exists t :: 0 <= t < |s.calls| && CanCall(s, t)
  }

  lemma WriterMoves(s: State)
    requires LocksOk(s) && s.watcherLock.Writer?
    ensures CanCall(s, s.watcherLock.call)
  {
    assert HoldsWatcher(s.calls[s.watcherLock.call]);
  }

  lemma CacheHolderMoves(s: State)
    requires LocksOk(s) && !s.cacheLock.Unlocked?
    ensures SomeoneCanMove(s)
  {
    if s.cacheLock.ByCall? {
      assert HoldsCache(s.calls[s.cacheLock.call]);
      assert CanCall(s, s.cacheLock.call);
    }
  }

  lemma LoopOrHolderMoves(s: State)
    requires LocksOk(s) && s.watcherLock.Reader?
    ensures SomeoneCanMove(s)
  {
    if !CanLoop(s, true) {
      CacheHolderMoves(s);
    }
  }

  ghost predicate AllDone(s: State)
  {
    s.events == [] && s.loop.Idle? && forall t :: 0 <= t < |s.calls| ==> Finished(s.calls[t])
  }

  lemma FreeLocksLetMove(s: State)
    requires LocksOk(s) && s.watcherLock.Free? && s.cacheLock.Unlocked? && !AllDone(s)
    ensures SomeoneCanMove(s)
  {
    if t :| 0 <= t < |s.calls| && !Finished(s.calls[t]) {
      assert !HoldsWatcher(s.calls[t]) && !HoldsCache(s.calls[t]);
      assert CanCall(s, t);
    }
  }

  lemma UnfinishedCanMove(s: State)
    requires LocksOk(s) && !AllDone(s)
    ensures SomeoneCanMove(s)
  {
    if s.watcherLock.Writer? {
      WriterMoves(s);
    } else if s.watcherLock.Reader? {
      LoopOrHolderMoves(s);
    } else if !s.cacheLock.Unlocked? {
      CacheHolderMoves(s);
    } else {
      FreeLocksLetMove(s);
    }
  }

  /** No reachable state deadlocks, not even when a waiting writer keeps the
      loop from reading: someone can move exactly when a call has not finished
      or an event is left. */
  lemma NoDeadlock(s: State, steps: seq<Step>)
    requires Initial(s) && IsRun(s, steps)
    ensures SomeoneCanMove(After(s, steps)) <==> !AllDone(After(s, steps))
  {
    ReachableSatisfiesInv(s, steps);
    if !AllDone(After(s, steps)) {
      UnfinishedCanMove(After(s, steps));
    }
  }
}
