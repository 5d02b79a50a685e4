/** The objects of the watcher, as their methods update them, and the proof
    that the methods do what the machine's steps do when nothing interferes. */
module FileWatcherObjects {
  import opened Wrappers
  import opened FileWatcher

  /** The files and the notifier of the operating system. */
  class Disk {
    var files: map<Path, Content>
    var watches: set<Path>

    constructor (files: map<Path, Content>)
      ensures this.files == files && watches == {}
    {
      this.files, watches := files, {};
    }
  }

  /** What a registered callback will refresh. */
  datatype Callback = Refresh(path: Path)

  class Watcher {
    const disk: Disk
    var watchedFiles: map<Path, seq<Callback>>
    var locked: bool

    ghost function Callbacks(): map<Path, nat>
      reads this
    {
      map p | p in watchedFiles :: |watchedFiles[p]|
    }

    ghost predicate OwnCallbacks()
      reads this
    {
      forall p :: p in watchedFiles ==> forall i :: 0 <= i < |watchedFiles[p]| ==> watchedFiles[p][i] == Refresh(p)
    }

    constructor (disk: Disk)
      ensures this.disk == disk && watchedFiles == map[] && !locked
    {
      this.disk := disk;
      watchedFiles, locked := map[], false;
    }

    /** fileWatcher.Add; `refuse` tells whether the notifier refuses the watch. */
    method Add(path: Path, cb: Callback, refuse: bool) returns (ok: bool)
      requires !locked
      modifies this, disk`watches
      ensures !locked
      ensures ok <==> path in old(watchedFiles) || !refuse
      ensures !ok ==> watchedFiles == old(watchedFiles)
      ensures ok ==> Callbacks() == Incremented(old(Callbacks()), path)
      ensures old(OwnCallbacks()) && cb == Refresh(path) ==> OwnCallbacks()
      ensures ok ==> watchedFiles == old(watchedFiles)[path :=
                       (if path in old(watchedFiles) then old(watchedFiles)[path] else []) + [cb]]
      ensures disk.watches == if ok && path !in old(watchedFiles) then old(disk.watches) + {path} else old(disk.watches)
    {
      locked := true;
      if path !in watchedFiles {
        if refuse {
          locked := false;
          return false;
        }
        disk.watches := disk.watches + {path};
        watchedFiles := watchedFiles[path := [cb]];
        locked := false;
        assert [] + [cb] == [cb];
        return true;
      }
      watchedFiles := watchedFiles[path := watchedFiles[path] + [cb]];
      locked := false;
      return true;
    }
  }

  class CachedWatcher {
    const disk: Disk
    const cw: Watcher
    var watchedFiles: map<Path, Option<Content>>
    var locked: bool

    ghost predicate Valid()
      reads this, cw
    {
      cw.disk == disk && !locked && !cw.locked && cw.OwnCallbacks()
    }

    /** The state of the machine, given what else is going on. */
    ghost function Value(events: seq<Path>, calls: seq<Call>, loop: Loop): State
      reads this, cw, disk
    {
      State(disk.files, disk.watches, cw.Callbacks(), watchedFiles, events,
            if cw.locked then Reader else Free, if locked then ByLoop else Unlocked, calls, loop)
    }

    constructor (disk: Disk)
      ensures this.disk == disk && fresh(cw) && Valid() && watchedFiles == map[] && cw.watchedFiles == map[]
    {
      this.disk := disk;
      cw := new Watcher(disk);
      watchedFiles, locked := map[], false;
    }

    method UpdateContentFromFile(path: Path) returns (ok: bool)
      modifies this`watchedFiles
      ensures ok <==> path in disk.files
      ensures watchedFiles == if ok then old(watchedFiles)[path := Some(disk.files[path])] else old(watchedFiles)
    {
      if path !in disk.files {
        return false;
      }
      watchedFiles := watchedFiles[path := Some(disk.files[path])];
      return true;
    }

    /** What the callback of a path does: a file that cannot be read leaves the
        cached content. */
    method Run(cb: Callback)
      requires !locked
      modifies this
      ensures !locked && watchedFiles == Refreshed(old(watchedFiles), disk.files, cb.path)
    {
      locked := true;
      var ok := UpdateContentFromFile(cb.path);
      locked := false;
    }

    /** cachedFileWatcher.Add: the watcher's lock is released before the cache's
        is taken, and only the first Add of a path reads the file. */
    method Add(path: Path, refuse: bool, ghost events: seq<Path>, ghost calls: seq<Call>, ghost loop: Loop)
      returns (ok: bool)
      requires Valid()
      modifies this, cw, disk`watches
      ensures Valid()
      ensures ok <==> path in old(cw.watchedFiles) || !refuse
      ensures Value(events, calls + [if ok then Returned(path) else Failed(path)], loop)
              == Added(old(Value(events, calls, loop)), path, refuse)
      ensures !ok || path in old(watchedFiles) ==> watchedFiles == old(watchedFiles)
      ensures ok && path !in old(watchedFiles) ==>
                watchedFiles == old(watchedFiles)[path := if path in disk.files then Some(disk.files[path]) else None]
    {
      var added := cw.Add(path, Refresh(path), refuse);
      if !added {
        return false;
      }
      locked := true;
      if path !in watchedFiles {
        var read := UpdateContentFromFile(path);
        if !read {
          watchedFiles := watchedFiles[path := None];
        }
      }
      locked := false;
      return true;
    }

    /** One turn of the event loop: every callback of the path is run. */
    method Handle(path: Path, ghost events: seq<Path>, ghost calls: seq<Call>)
      requires Valid()
      modifies this, cw`locked
      ensures Valid()
      ensures Value(events, calls, Idle) == Handled(old(Value([path] + events, calls, Idle)))
      ensures watchedFiles == if path in cw.watchedFiles && cw.watchedFiles[path] != [] && path in disk.files
                              then old(watchedFiles)[path := Some(disk.files[path])] else old(watchedFiles)
    {
      cw.locked := true;
      var cbs := if path in cw.watchedFiles then cw.watchedFiles[path] else [];
      for i := 0 to |cbs|
        invariant !locked && cw.OwnCallbacks()
        invariant watchedFiles == if i == 0 then old(watchedFiles) else Refreshed(old(watchedFiles), disk.files, path)
      {
        Run(cbs[i]);
      }
      cw.locked := false;
    }

    method GetContent(path: Path, ghost events: seq<Path>, ghost calls: seq<Call>, ghost loop: Loop)
      returns (r: Result<Option<Content>, ContentError>)
      requires Valid()
      ensures r == FileWatcher.GetContent(Value(events, calls, loop), path)
      ensures r == if path in watchedFiles then Success(watchedFiles[path]) else Failure(NotWatched)
    {
      if path !in watchedFiles {
        return Failure(NotWatched);
      }
      return Success(watchedFiles[path]);
    }
  }

  // ------------------------------------------------------------ undisturbed runs

  function Refreshed(cache: map<Path, Option<Content>>, files: map<Path, Content>, p: Path): map<Path, Option<Content>>
  {
    if p in files then cache[p := Some(files[p])] else cache
  }

  function Incremented(callbacks: map<Path, nat>, p: Path): map<Path, nat>
  {
    callbacks[p := if p in callbacks then callbacks[p] + 1 else 1]
  }

  /** What a whole call of Add does when nothing comes in between. */
  function Added(s: State, p: Path, refuse: bool): State
  {
    if p !in s.callbacks && refuse then s.(calls := s.calls + [Failed(p)])
    else
      s.(watches := if p in s.callbacks then s.watches else s.watches + {p},
         callbacks := Incremented(s.callbacks, p),
         cache := if p in s.cache then s.cache else s.cache[p := At(s.files, p)],
         calls := s.calls + [Returned(p)])
  }

  /** What a whole turn of the loop does when nothing comes in between. */
  function Handled(s: State): State
    requires s.events != []
  {
    var p := s.events[0];
    s.(events := s.events[1..],
       cache := if p in s.callbacks && s.callbacks[p] > 0 then Refreshed(s.cache, s.files, p) else s.cache)
  }

  /** The next `k` steps of call `t`. */
  function Moves(t: nat, refuse: bool, k: nat): seq<Step>
  {
    seq(k, _ => CallMoves(t, refuse))
  }

  lemma MovesFirst(t: nat, refuse: bool, k: nat)
    requires k > 0
    ensures Moves(t, refuse, k)[0] == CallMoves(t, refuse) && Moves(t, refuse, k)[1..] == Moves(t, refuse, k - 1)
  {
  }

  ghost predicate Reaches(s: State, steps: seq<Step>, s': State)
  {
    IsRun(s, steps) && After(s, steps) == s'
  }

  lemma OneMove(s: State, t: nat, refuse: bool, k: nat, s': State)
    requires k > 0 && CanCall(s, t) && Reaches(CallStep(s, t, refuse), Moves(t, refuse, k - 1), s')
    ensures Reaches(s, Moves(t, refuse, k), s')
  {
    MovesFirst(t, refuse, k);
  }

  predicate LocksFree(s: State)
  {
    s.watcherLock.Free? && s.cacheLock.Unlocked?
  }

  /** From the point where the callback is inserted. */
  lemma CacheHalfAlone(s: State, t: nat, refuse: bool, p: Path)
    requires t < |s.calls| && s.calls[t] == WaitingForCache(p) && LocksFree(s)
    ensures var k := if p in s.cache then 3 else 4;
            Reaches(s, Moves(t, refuse, k),
                    s.(cache := if p in s.cache then s.cache else s.cache[p := At(s.files, p)],
                       calls := s.calls[t := Returned(p)]))
  {
    var s1 := CallStep(s, t, refuse);
    var s2 := CallStep(s1, t, refuse);
    var s3 := CallStep(s2, t, refuse);
    if p in s.cache {
      OneMove(s2, t, refuse, 1, s3);
      OneMove(s1, t, refuse, 2, s3);
      OneMove(s, t, refuse, 3, s3);
      assert s3.calls == s.calls[t := Returned(p)];
    } else {
      var s4 := CallStep(s3, t, refuse);
      OneMove(s3, t, refuse, 1, s4);
      OneMove(s2, t, refuse, 2, s4);
      OneMove(s1, t, refuse, 3, s4);
      OneMove(s, t, refuse, 4, s4);
      assert s4.calls == s.calls[t := Returned(p)];
    }
  }

  /** The state of a call that holds the watcher's lock and inserted its
      callback. */
  function JustInserted(s: State, p: Path): State
  {
    s.(watches := if p in s.callbacks then s.watches else s.watches + {p}, callbacks := Incremented(s.callbacks, p),
       calls := s.calls + [Inserted(p)], watcherLock := Writer(|s.calls|))
  }

  lemma InsertedAlone(s: State, p: Path, refuse: bool) returns (k: nat)
    requires LocksFree(s) && (p in s.callbacks || !refuse)
    ensures Reaches(JustInserted(s, p), Moves(|s.calls|, refuse, k), Added(s, p, refuse))
  {
    var u := CallStep(JustInserted(s, p), |s.calls|, refuse);
    assert u.calls == s.calls + [WaitingForCache(p)];
    k := WatcherHalf(u, |s.calls|, refuse, p);
    SameAdded(s, u, p, refuse);
    OneMove(JustInserted(s, p), |s.calls|, refuse, k + 1, Added(s, p, refuse));
    k := k + 1;
  }

  lemma CheckedAlone(s: State, p: Path, refuse: bool, c: State) returns (k: nat)
    requires LocksFree(s) && c == s.(calls := s.calls + [Checking(p)], watcherLock := Writer(|s.calls|))
    ensures Reaches(c, Moves(|s.calls|, refuse, k), Added(s, p, refuse))
  {
    var t := |s.calls|;
    var d := CallStep(c, t, refuse);
    if p in s.callbacks {
      assert d == JustInserted(s, p);
      k := InsertedAlone(s, p, refuse);
    } else {
      var e := CallStep(d, t, refuse);
      if refuse {
        k := 0;
        assert e.calls == s.calls + [Failed(p)] && Moves(t, refuse, 0) == [];
      } else {
        assert e.calls == s.calls + [Inserted(p)];
        assert e == JustInserted(s, p);
        k := InsertedAlone(s, p, refuse);
      }
      OneMove(d, t, refuse, k + 1, Added(s, p, refuse));
      k := k + 1;
    }
    OneMove(c, t, refuse, k + 1, Added(s, p, refuse));
    k := k + 1;
  }

  /** A call of Add that nothing interferes with reaches, step by step, the
      state that the method leaves. */
  lemma AddAlone(s: State, p: Path, refuse: bool) returns (steps: seq<Step>)
    requires LocksFree(s)
    ensures Reaches(s, steps, Added(s, p, refuse))
  {
    var c := CallStep(CallAdd(s, p), |s.calls|, refuse);
    assert c.calls == s.calls + [Checking(p)];
    var k := CheckedAlone(s, p, refuse, c);
    OneMove(CallAdd(s, p), |s.calls|, refuse, k + 1, Added(s, p, refuse));
    steps := [AddIsCalled(p)] + Moves(|s.calls|, refuse, k + 1);
    assert steps[1..] == Moves(|s.calls|, refuse, k + 1);
  }

  /** The number of steps that are left once the watcher's lock is released. */
  lemma WatcherHalf(s: State, t: nat, refuse: bool, p: Path) returns (k: nat)
    requires t < |s.calls| && s.calls[t] == WaitingForCache(p) && LocksFree(s)
    ensures Reaches(s, Moves(t, refuse, k),
                    s.(cache := if p in s.cache then s.cache else s.cache[p := At(s.files, p)],
                       calls := s.calls[t := Returned(p)]))
  {
    CacheHalfAlone(s, t, refuse, p);
    k := if p in s.cache then 3 else 4;
  }

  lemma SameAdded(s: State, u: State, p: Path, refuse: bool)
    requires p in s.callbacks || !refuse
    requires u == s.(watches := if p in s.callbacks then s.watches else s.watches + {p},
                     callbacks := Incremented(s.callbacks, p), calls := s.calls + [WaitingForCache(p)])
    ensures u.(cache := if p in u.cache then u.cache else u.cache[p := At(u.files, p)],
               calls := u.calls[|s.calls| := Returned(p)]) == Added(s, p, refuse)
  {
    assert (s.calls + [WaitingForCache(p)])[|s.calls| := Returned(p)] == s.calls + [Returned(p)];
  }

  function Turns(k: nat): seq<Step>
  {
    seq(k, _ => LoopMoves)
  }

  lemma OneTurn(s: State, k: nat, s': State)
    requires k > 0 && CanLoop(s, false) && Reaches(LoopStep(s), Turns(k - 1), s')
    ensures Reaches(s, Turns(k), s')
  {
    assert Turns(k)[0] == LoopMoves && Turns(k)[1..] == Turns(k - 1);
  }

  lemma RefreshedTwice(cache: map<Path, Option<Content>>, files: map<Path, Content>, p: Path)
    ensures Refreshed(Refreshed(cache, files, p), files, p) == Refreshed(cache, files, p)
  {
  }

  /** Running the callbacks that are left and releasing the lock. */
  lemma {:induction false} CallbacksAlone(s: State, p: Path, n: nat) returns (k: nat)
    requires s.loop == Calling(p, n) && s.cacheLock.Unlocked?
    ensures Reaches(s, Turns(k), s.(loop := Idle, watcherLock := Free,
                                    cache := if n > 0 then Refreshed(s.cache, s.files, p) else s.cache))
    ensures k == (if p in s.files then 4 else 3) * n + 1
    decreases n
  {
    var s1 := LoopStep(s);
    if n == 0 {
      k := 1;
      assert Turns(0) == [];
      OneTurn(s, 1, s1);
    } else {
      var s2 := LoopStep(s1);
      var s3 := LoopStep(s2);
      RefreshedTwice(s.cache, s.files, p);
      if p in s.files {
        var s4 := LoopStep(s3);
        k := CallbacksAlone(s4, p, n - 1);
        var end := s.(loop := Idle, watcherLock := Free, cache := Refreshed(s.cache, s.files, p));
        OneTurn(s3, k + 1, end);
        OneTurn(s2, k + 2, end);
        OneTurn(s1, k + 3, end);
        OneTurn(s, k + 4, end);
        k := k + 4;
      } else {
        k := CallbacksAlone(s3, p, n - 1);
        var end := s.(loop := Idle, watcherLock := Free, cache := Refreshed(s.cache, s.files, p));
        OneTurn(s2, k + 1, end);
        OneTurn(s1, k + 2, end);
        OneTurn(s, k + 3, end);
        k := k + 3;
      }
    }
  }

  /** A turn of the loop that nothing interferes with: four steps, and for each
      callback of the path three steps or, when the file can be read, four. */
  lemma HandleAlone(s: State) returns (k: nat)
    requires s.events != [] && s.loop.Idle? && LocksFree(s)
    ensures Reaches(s, Turns(k), Handled(s))
    ensures var p := s.events[0];
            k == 4 + (if p in s.files then 4 else 3) * (if p in s.callbacks then s.callbacks[p] else 0)
  {
    var p := s.events[0];
    var s1 := LoopStep(s);
    var s2 := LoopStep(s1);
    var s3 := LoopStep(s2);
    k := CallbacksAlone(s3, p, if p in s.callbacks then s.callbacks[p] else 0);
    OneTurn(s2, k + 1, Handled(s));
    OneTurn(s1, k + 2, Handled(s));
    OneTurn(s, k + 3, Handled(s));
    k := k + 3;
  }
}
