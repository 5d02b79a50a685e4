/** The cached file watcher as a concurrent protocol: any number of calls of
    Add and one event loop, which share two maps under two locks, while files
    change at any moment. A path is watched before its callback is inserted,
    and a file is read before its content is stored; in between, anything may
    happen. */
module FileWatcher {
  import opened Wrappers

  type Path = string
  type Content = string

  /** Where a call of Add stands. */
  datatype Call =
    | Waiting(path: Path) // for the watcher's lock
    | Checking(path: Path)
    | Registered(path: Path) // the watch exists, the callback does not
    | Inserted(path: Path)
    | Refused(path: Path)
    | WaitingForCache(path: Path)
    | InCache(path: Path)
    | HasRead(path: Path, content: Option<Content>)
    | Stored(path: Path)
    | Returned(path: Path)
    | Failed(path: Path)

  /** Where the event loop stands; `left` callbacks are still to run. */
  datatype Loop =
    | Idle
    | Received(path: Path)
    | Locked(path: Path)
    | Calling(path: Path, left: nat)
    | InCallback(path: Path, left: nat)
    | CallbackRead(path: Path, left: nat, content: Content)
    | CallbackDone(path: Path, left: nat)

  datatype WatcherLock = Free | Writer(call: nat) | Reader
  datatype CacheLock = Unlocked | ByCall(call: nat) | ByLoop

  datatype State = State(
    files: map<Path, Content>, // the readable files
    watches: set<Path>,
    callbacks: map<Path, nat>, // how many callbacks each path has
    cache: map<Path, Option<Content>>,
    events: seq<Path>,
    watcherLock: WatcherLock,
    cacheLock: CacheLock,
    calls: seq<Call>,
    loop: Loop)

  ghost predicate Initial(s: State)
  {
    s.watches == {} && s.callbacks == map[] && s.cache == map[] && s.events == [] && s.watcherLock.Free?
    && s.cacheLock.Unlocked? && s.calls == [] && s.loop.Idle?
  }

  function At(files: map<Path, Content>, p: Path): Option<Content>
  {
    if p in files then Some(files[p]) else None
  }

  // ------------------------------------------------------------ the environment

  /** A file changes, or stops to be readable; the notifier enqueues an event
      when the path is watched. */
  function Change(s: State, p: Path, c: Option<Content>): State
  {
    s.(files := if c.Some? then s.files[p := c.value] else s.files - {p},
       events := if p in s.watches then s.events + [p] else s.events)
  }

  function CallAdd(s: State, p: Path): State
  {
    s.(calls := s.calls + [Waiting(p)])
  }

  // -------------------------------------------------------------------- steps

  predicate CanCall(s: State, t: nat)
  {
    t < |s.calls| &&
    match s.calls[t]
    case Waiting(_) => s.watcherLock.Free?
    case WaitingForCache(_) => s.cacheLock.Unlocked?
    case Returned(_) => false
    case Failed(_) => false
    case _ => true
  }

  function Moved(s: State, t: nat, c: Call): State
    requires t < |s.calls|
  {
    s.(calls := s.calls[t := c])
  }

  /** One step of a call of Add; `refuse` tells whether the notifier would
      refuse the watch. */
  function CallStep(s: State, t: nat, refuse: bool): State
    requires CanCall(s, t)
  {
    match s.calls[t]
    case Waiting(p) => Moved(s, t, Checking(p)).(watcherLock := Writer(t))
    case Checking(p) =>
      if p in s.callbacks then Moved(s, t, Inserted(p)).(callbacks := s.callbacks[p := s.callbacks[p] + 1])
      else if refuse then Moved(s, t, Refused(p))
      else Moved(s, t, Registered(p)).(watches := s.watches + {p})
    case Registered(p) => Moved(s, t, Inserted(p)).(callbacks := s.callbacks[p := 1])
    case Inserted(p) => Moved(s, t, WaitingForCache(p)).(watcherLock := Free)
    case Refused(p) => Moved(s, t, Failed(p)).(watcherLock := Free)
    case WaitingForCache(p) => Moved(s, t, InCache(p)).(cacheLock := ByCall(t))
    case InCache(p) => Moved(s, t, if p in s.cache then Stored(p) else HasRead(p, At(s.files, p)))
    case HasRead(p, c) => Moved(s, t, Stored(p)).(cache := s.cache[p := c])
    case Stored(p) => Moved(s, t, Returned(p)).(cacheLock := Unlocked)
  }

  /** A waiting writer keeps new readers out when `prefer` holds. */
  predicate CanLoop(s: State, prefer: bool)
  {
    match s.loop
    case Idle => s.events != []
    case Received(_) => s.watcherLock.Free? && (prefer ==> forall t :: 0 <= t < |s.calls| ==> !s.calls[t].Waiting?)
    case Calling(_, n) => n > 0 ==> s.cacheLock.Unlocked?
    case _ => true
  }

  function LoopStep(s: State): State
    requires CanLoop(s, false)
  {
    match s.loop
    case Idle => s.(loop := Received(s.events[0]), events := s.events[1..])
    case Received(p) => s.(loop := Locked(p), watcherLock := Reader)
    case Locked(p) => s.(loop := Calling(p, if p in s.callbacks then s.callbacks[p] else 0))
    case Calling(p, n) =>
      if n == 0 then s.(loop := Idle, watcherLock := Free)
      else s.(loop := InCallback(p, n), cacheLock := ByLoop)
    case InCallback(p, n) =>
      s.(loop := if p in s.files then CallbackRead(p, n, s.files[p]) else CallbackDone(p, n))
    case CallbackRead(p, n, c) => s.(loop := CallbackDone(p, n), cache := s.cache[p := Some(c)])
    case CallbackDone(p, n) => s.(loop := Calling(p, if n > 0 then n - 1 else 0), cacheLock := Unlocked)
  }

  datatype Step =
    | FileChanges(path: Path, content: Option<Content>)
    | AddIsCalled(path: Path)
    | CallMoves(call: nat, refuse: bool)
    | LoopMoves

  predicate Enabled(s: State, e: Step)
  {
    match e
    case FileChanges(_, _) => true
    case AddIsCalled(_) => true
    case CallMoves(t, _) => CanCall(s, t)
    case LoopMoves => CanLoop(s, false)
  }

  function Apply(s: State, e: Step): State
    requires Enabled(s, e)
  {
    match e
    case FileChanges(p, c) => Change(s, p, c)
    case AddIsCalled(p) => CallAdd(s, p)
    case CallMoves(t, refuse) => CallStep(s, t, refuse)
    case LoopMoves => LoopStep(s)
  }

  ghost predicate IsRun(s: State, steps: seq<Step>)
    decreases |steps|
  {
    steps == [] || (Enabled(s, steps[0]) && IsRun(Apply(s, steps[0]), steps[1..]))
  }

  ghost function After(s: State, steps: seq<Step>): State
    requires IsRun(s, steps)
    decreases |steps|
  {
    if steps == [] then s else After(Apply(s, steps[0]), steps[1..])
  }

  // ------------------------------------------------------------ reading the cache

  datatype ContentError = NotWatched

  /** GetContent; a watched path that could not be read has no content. */
  function GetContent(s: State, p: Path): Result<Option<Content>, ContentError>
  {
    if p in s.cache then Success(s.cache[p]) else Failure(NotWatched)
  }
}
