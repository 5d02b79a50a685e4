/** Once files stop to change and no call of Add is made, the watcher comes to
    rest after a bounded number of steps, with a cache that is current. */
module FileWatcherProgress {
  import opened Wrappers
  import opened FileWatcher
  import opened FileWatcherSafety

  // ------------------------------------------------------- counting callbacks

  function CountPast(calls: seq<Call>, p: Path): nat
  {
    if calls == [] then 0
    else CountPast(calls[..|calls| - 1], p) + (if Past(calls[|calls| - 1]) && calls[|calls| - 1].path == p then 1 else 0)
  }

  predicate PastAt(c: Call, p: Path)
  {
    Past(c) && c.path == p
  }

  lemma {:induction false} CountIsBounded(calls: seq<Call>, p: Path)
    ensures CountPast(calls, p) <= |calls|
    ensures (forall t :: 0 <= t < |calls| ==> !PastAt(calls[t], p)) ==> CountPast(calls, p) == 0
  {
    if calls != [] {
      var init := calls[..|calls| - 1];
      CountIsBounded(init, p);
      if forall t :: 0 <= t < |calls| ==> !PastAt(calls[t], p) {
        assert forall t :: 0 <= t < |init| ==> init[t] == calls[t];
        assert !PastAt(calls[|calls| - 1], p);
      }
    }
  }

  lemma {:induction false} CountAfterUpdate(calls: seq<Call>, t: nat, c: Call, p: Path)
    requires t < |calls|
    ensures CountPast(calls[t := c], p) + (if PastAt(calls[t], p) then 1 else 0)
            == CountPast(calls, p) + (if PastAt(c, p) then 1 else 0)
  {
    var last := |calls| - 1;
    if t == last {
      assert calls[t := c][..last] == calls[..last];
    } else {
      CountAfterUpdate(calls[..last], t, c, p);
      assert calls[t := c][..last] == calls[..last][t := c];
    }
  }

  /** Every call of Add that came through added one callback, and nothing else
      did. */
  ghost predicate CallbacksCounted(s: State)
  {
    forall p :: p in s.callbacks ==> s.callbacks[p] == CountPast(s.calls, p)
  }

  lemma UncountedPath(s: State, p: Path)
    requires PathsOk(s) && p !in s.callbacks
    ensures CountPast(s.calls, p) == 0
  {
    CountIsBounded(s.calls, p);
  }

  function CountAt(callbacks: map<Path, nat>, p: Path): nat
  {
    if p in callbacks then callbacks[p] else 0
  }

  /** The count of a path grows exactly when the call gets past its insertion. */
  lemma CallStepCallbacks(s: State, t: nat, refuse: bool, p: Path)
    requires WatchesOk(s) && CanCall(s, t)
    ensures var s' := CallStep(s, t, refuse);
            CountAt(s'.callbacks, p) + (if PastAt(s.calls[t], p) then 1 else 0)
            == CountAt(s.callbacks, p) + (if PastAt(s'.calls[t], p) then 1 else 0)
  {
    var s' := CallStep(s, t, refuse);
    assert s'.calls[t].path == s.calls[t].path;
    if p != s.calls[t].path {
      assert CountAt(s'.callbacks, p) == CountAt(s.callbacks, p);
    }
  }

  lemma CallStepCountsPath(s: State, t: nat, refuse: bool, p: Path)
    requires MapsOk(s) && CallbacksCounted(s) && CanCall(s, t) && p in CallStep(s, t, refuse).callbacks
    ensures CallStep(s, t, refuse).callbacks[p] == CountPast(CallStep(s, t, refuse).calls, p)
  {
    CallStepCallbacks(s, t, refuse, p);
    CallStepMovesOne(s, t, refuse);
    CountAfterUpdate(s.calls, t, CallStep(s, t, refuse).calls[t], p);
    if p !in s.callbacks {
      UncountedPath(s, p);
    }
  }

  lemma CallStepKeepsCount(s: State, t: nat, refuse: bool)
    requires Inv(s) && CallbacksCounted(s) && CanCall(s, t)
    ensures CallbacksCounted(CallStep(s, t, refuse))
  {
    var s' := CallStep(s, t, refuse);
    forall p | p in s'.callbacks
      ensures s'.callbacks[p] == CountPast(s'.calls, p)
    {
      CallStepCountsPath(s, t, refuse, p);
    }
  }

  lemma StepKeepsCount(s: State, e: Step)
    requires Inv(s) && CallbacksCounted(s) && Enabled(s, e)
    ensures CallbacksCounted(Apply(s, e))
  {
    if e.CallMoves? {
      CallStepKeepsCount(s, e.call, e.refuse);
    } else if e.AddIsCalled? {
      assert CallAdd(s, e.path).calls[..|s.calls|] == s.calls;
    }
  }

  lemma {:induction false} RunKeepsCount(s: State, steps: seq<Step>)
    requires Inv(s) && CallbacksCounted(s) && IsRun(s, steps)
    ensures Inv(After(s, steps)) && CallbacksCounted(After(s, steps))
    decreases |steps|
  {
    if steps != [] {
      StepKeepsInv(s, steps[0]);
      StepKeepsCount(s, steps[0]);
      RunKeepsCount(Apply(s, steps[0]), steps[1..]);
    }
  }

  // ------------------------------------------------------------------ measure

  function Rank(c: Call): nat
  {
    match c
    case Waiting(_) => 8
    case Checking(_) => 7
    case Registered(_) => 6
    case Inserted(_) => 5
    case WaitingForCache(_) => 4
    case InCache(_) => 3
    case HasRead(_, _) => 2
    case Stored(_) => 1
    case Refused(_) => 1
    case Returned(_) => 0
    case Failed(_) => 0
  }

  function RankSum(calls: seq<Call>): nat
  {
    if calls == [] then 0 else RankSum(calls[..|calls| - 1]) + Rank(calls[|calls| - 1])
  }

  /** What is left of the current event; `n` bounds the callbacks of a path. */
  function LoopRank(l: Loop, n: nat): int
  {
    match l
    case Idle => 0
    case Received(_) => 4 * n + 3
    case Locked(_) => 4 * n + 2
    case Calling(_, k) => 4 * k + 1
    case InCallback(_, k) => 4 * k
    case CallbackRead(_, k, _) => 4 * k - 1
    case CallbackDone(_, k) => 4 * k - 2
  }

  function Measure(s: State): int
  {
    RankSum(s.calls) + |s.events| * (4 * |s.calls| + 4) + LoopRank(s.loop, |s.calls|)
  }

  lemma {:induction false} RankSumAfterUpdate(calls: seq<Call>, t: nat, c: Call)
    requires t < |calls|
    ensures RankSum(calls[t := c]) + Rank(calls[t]) == RankSum(calls) + Rank(c)
  {
    var last := |calls| - 1;
    if t == last {
      assert calls[t := c][..last] == calls[..last];
    } else {
      RankSumAfterUpdate(calls[..last], t, c);
      assert calls[t := c][..last] == calls[..last][t := c];
    }
  }

  predicate IsInternal(e: Step)
  {
    e.CallMoves? || e.LoopMoves?
  }

  lemma CallStepDecreases(s: State, t: nat, refuse: bool)
    requires CanCall(s, t)
    ensures Measure(CallStep(s, t, refuse)) < Measure(s)
  {
    var s' := CallStep(s, t, refuse);
    RankSumAfterUpdate(s.calls, t, s'.calls[t]);
    assert Rank(s'.calls[t]) < Rank(s.calls[t]);
  }

  lemma OneEventLess(n: nat, k: nat)
    requires n > 0
    ensures (n - 1) * (4 * k + 4) == n * (4 * k + 4) - (4 * k + 4)
  {
  }

  lemma LoopStepDecreases(s: State)
    requires Inv(s) && CallbacksCounted(s) && CanLoop(s, false)
    ensures Measure(LoopStep(s)) < Measure(s)
  {
    if s.loop.Idle? {
      OneEventLess(|s.events|, |s.calls|);
    } else if s.loop.Locked? && s.loop.path in s.callbacks {
      CountIsBounded(s.calls, s.loop.path);
    }
  }

  lemma MeasureIsNatural(s: State)
    requires LocksOk(s)
    ensures Measure(s) >= 0
  {
  }

  /** No internal run is longer than the measure of the state it starts in. */
  lemma {:induction false} InternalRunIsBounded(s: State, steps: seq<Step>)
    requires Inv(s) && CallbacksCounted(s) && IsRun(s, steps) && forall e :: e in steps ==> IsInternal(e)
    ensures |steps| <= Measure(s)
    decreases |steps|
  {
    MeasureIsNatural(s);
    if steps != [] {
      var e := steps[0];
      assert e in steps;
      StepKeepsInv(s, e);
      StepKeepsCount(s, e);
      if e.CallMoves? {
        CallStepDecreases(s, e.call, e.refuse);
      } else {
        LoopStepDecreases(s);
      }
      InternalRunIsBounded(Apply(s, e), steps[1..]);
    }
  }

  /** Nobody but the environment can move. */
  ghost predicate AtRest(s: State)
  {
    !SomeoneCanMove(s)
  }

  /** After any run, once files stay as they are and Add is not called again,
      the watcher comes to rest within a bounded number of steps, whatever the
      scheduling; then every Add has returned or failed, and each path that was
      added shows the content of its file when that is readable. */
  lemma ComesToRestWithCurrentCache(s: State, steps: seq<Step>, quiet: seq<Step>)
    requires Initial(s) && IsRun(s, steps) && IsRun(After(s, steps), quiet) && forall e :: e in quiet ==> IsInternal(e)
    ensures |quiet| <= Measure(After(s, steps))
    ensures var t := After(After(s, steps), quiet);
            AtRest(t) ==>
              && (forall c :: 0 <= c < |t.calls| ==> Finished(t.calls[c]))
              && (forall c :: 0 <= c < |t.calls| && t.calls[c].Returned? && t.calls[c].path in t.files ==>
                    GetContent(t, t.calls[c].path) == Success(Some(t.files[t.calls[c].path])))
  {
    RunKeepsCount(s, steps);
    InternalRunIsBounded(After(s, steps), quiet);
    RunKeepsCount(After(s, steps), quiet);
    var t := After(After(s, steps), quiet);
    if AtRest(t) && !AllDone(t) {
      UnfinishedCanMove(t);
    }
  }

  /** Every Add that came through has its own callback, so a path that was added
      twice is read twice for each of its events. */
  lemma OneCallbackPerAdd(s: State, steps: seq<Step>, p: Path)
    requires Initial(s) && IsRun(s, steps) && p in After(s, steps).callbacks
    ensures After(s, steps).callbacks[p] == CountPast(After(s, steps).calls, p)
  {
    RunKeepsCount(s, steps);
  }
}
