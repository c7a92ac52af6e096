/**
 * Restart sequencing: `restart` tears down the previous run, rewraps the
 * drivers, calls the pre-replay hooks, builds and runs the new graph, replays
 * each driver's previous log, and on a successful virtual run calls the
 * post-replay hooks and the callback. `rerunner` builds the first run plainly
 * and routes every later call through `restart`. The hooks are recorded as an
 * ordered trace of actions.
 */
module Restart {
  import opened Common
  import SinkGate

  /** A driver in the drivers map, as far as restart looks at it: its name and which hooks it carries. */
  datatype DriverDesc = DriverDesc(
    name: string,
    preReplay: bool,    // `onPreReplay`
    replayLog: bool,    // `replayLog`
    postReplay: bool,   // `onPostReplay`
    hasLog: bool,       // `log$`
    takesTime: bool)    // called as `driver(sink$, realTime)`

  const TimeName: string := "Time"

  /** `drivers.Time = () => realTime`: a driver without hooks. */
  const TimeDriver: DriverDesc := DriverDesc(TimeName, false, false, false, false, false)

  /** The `isolate` argument, as `typeof isolate === 'function' && 'reset' in isolate` sees it. */
  datatype Isolate = NotAFunction | FunctionWithReset | FunctionWithoutReset

  /** The callback: an object with `start`/`stop`, or a function. */
  datatype Callback = CallbackObject | CallbackFunction

  /** `{sources, sinks, dispose}` of one run: its id and, per driver name, whether its source carries `log$`. */
  datatype RunHandle = RunHandle(run: nat, sources: map<string, bool>)

  /** What restart does, in order. */
  datatype Action =
    | DisposeRun(run: nat)                                         // the previous run's `dispose()`
    | ResetIsolate                                                 // `isolate.reset()`
    | CallPreReplay(driver: string)                                // `driver.onPreReplay()`
    | Setup(run: nat)                                              // `setup(main, drivers)` and `run()`
    | StartCallback(run: nat)                                      // `cb.start(...)`
    | CallReplayLog(driver: string, fromRun: nat, cutoff: Option<int>) // `driver.replayLog(scheduler, sources[name].log$, cutoff)`
    | CallPostReplay(driver: string)                               // `driver.onPostReplay()`
    | StopCallback                                                 // `cb.stop(err)`, `err` falsy
    | CallCallback                                                 // `cb(err)`, `err` falsy
    | Resume                                                       // `realTime._resume(...)`

  /** Why a restart throws. */
  datatype Failure =
    | MissingSource(driver: string)  // `sources[driverName]` is undefined: reading `.log$` throws
    | MissingLog(driver: string)     // the previous source has no `log$`: `replayLog` throws on it
    | VirtualRunError                // the virtual run reports an error, which is rethrown

  datatype Result<T> = Ok(value: T) | Err(failure: Failure)

  /** The trace of one restart and, if it threw, why. */
  datatype RestartOutcome = RestartOutcome(actions: seq<Action>, failure: Option<Failure>)

  /** No two drivers share a name (they are the keys of one object). */
  predicate DistinctNames(ds: seq<DriverDesc>)
  {
    forall i, j :: 0 <= i < j < |ds| ==> ds[i].name != ds[j].name
  }

  /** Dropping the last driver keeps names distinct, and no earlier driver shares the last one's name. */
  lemma DistinctInit(ds: seq<DriverDesc>)
    requires DistinctNames(ds) && |ds| > 0
    ensures DistinctNames(ds[..|ds| - 1])
    ensures forall i :: 0 <= i < |ds| - 1 ==> ds[i].name != ds[|ds| - 1].name
  {
  }

  /** The drivers map after `drivers.Time = ...`: an existing `Time` is replaced in place, else it is added last. */
  function WithTime(ds: seq<DriverDesc>): (r: seq<DriverDesc>)
    ensures (forall i :: 0 <= i < |ds| ==> ds[i].name != TimeName) ==> r == ds + [TimeDriver]
    ensures exists i :: 0 <= i < |r| && r[i] == TimeDriver
  {
    if exists i :: 0 <= i < |ds| && ds[i].name == TimeName then
      var r := seq(|ds|, i requires 0 <= i < |ds| => if ds[i].name == TimeName then TimeDriver else ds[i]);
      var k :| 0 <= k < |ds| && ds[k].name == TimeName;
      assert r[k] == TimeDriver;
      r
    else
      assert (ds + [TimeDriver])[|ds|] == TimeDriver;
      ds + [TimeDriver]
  }

  /** `newDriver` in restart: passes `realTime`, keeps `replayLog`, `onPostReplay` and `log$`, not `onPreReplay`. */
  function Rewrap(d: DriverDesc): (r: DriverDesc)
    ensures r.name == d.name && r.replayLog == d.replayLog && r.postReplay == d.postReplay && r.hasLog == d.hasLog
    ensures !r.preReplay && r.takesTime
  {
    d.(preReplay := false, takesTime := true)
  }

  /** `newDriver` in rerunner's first run: passes `realTime` and keeps no hook at all. */
  function FirstWrap(d: DriverDesc): (r: DriverDesc)
    ensures r.name == d.name && r.takesTime
    ensures !r.preReplay && !r.replayLog && !r.postReplay && !r.hasLog
  {
    DriverDesc(d.name, false, false, false, false, true)
  }

  /** Every driver of the map, rewrapped in place. */
  function RewrapAll(ds: seq<DriverDesc>): (r: seq<DriverDesc>)
    ensures |r| == |ds|
  {
    seq(|ds|, i requires 0 <= i < |ds| => Rewrap(ds[i]))
  }

  /** Every driver of the map, wrapped in place for the first run. */
  function FirstWrapAll(ds: seq<DriverDesc>): (r: seq<DriverDesc>)
    ensures |r| == |ds|
  {
    seq(|ds|, i requires 0 <= i < |ds| => FirstWrap(ds[i]))
  }

  /** A driver already registered under `Time` is replaced in place; no other driver changes. */
  lemma WithTimeReplaces(ds: seq<DriverDesc>)
    requires exists i :: 0 <= i < |ds| && ds[i].name == TimeName
    ensures |WithTime(ds)| == |ds|
    ensures forall i :: 0 <= i < |ds| ==>
              WithTime(ds)[i] == (if ds[i].name == TimeName then TimeDriver else ds[i])
  {
  }

  /**
   * Rewrapping keeps each driver's name, its `replayLog` and `postReplay`
   * hooks and its `log$`, drops its `preReplay` hook and makes it take the
   * virtual time.
   */
  lemma RewrapAllKeeps(ds: seq<DriverDesc>)
    ensures forall i :: 0 <= i < |ds| ==>
              && RewrapAll(ds)[i].name == ds[i].name && RewrapAll(ds)[i].replayLog == ds[i].replayLog
              && RewrapAll(ds)[i].postReplay == ds[i].postReplay && RewrapAll(ds)[i].hasLog == ds[i].hasLog
              && !RewrapAll(ds)[i].preReplay && RewrapAll(ds)[i].takesTime
  {
  }

  /** The first run's wrapping keeps each driver's name, takes the time and keeps no hook and no log. */
  lemma FirstWrapAllKeeps(ds: seq<DriverDesc>)
    ensures forall i :: 0 <= i < |ds| ==>
              && FirstWrapAll(ds)[i].name == ds[i].name && FirstWrapAll(ds)[i].takesTime
              && !FirstWrapAll(ds)[i].preReplay && !FirstWrapAll(ds)[i].replayLog
              && !FirstWrapAll(ds)[i].postReplay && !FirstWrapAll(ds)[i].hasLog
  {
  }

  /** The pre-replay hook calls of the first loop, in driver order. */
  function PreReplayActions(ds: seq<DriverDesc>): (r: seq<Action>)
    ensures |r| <= |ds|
  {
    if |ds| == 0 then []
    else PreReplayActions(ds[..|ds| - 1])
         + (if ds[|ds| - 1].preReplay then [CallPreReplay(ds[|ds| - 1].name)] else [])
  }

  /** The post-replay hook calls, in driver order. */
  function PostReplayActions(ds: seq<DriverDesc>): (r: seq<Action>)
    ensures |r| <= |ds|
  {
    if |ds| == 0 then []
    else PostReplayActions(ds[..|ds| - 1])
         + (if ds[|ds| - 1].postReplay then [CallPostReplay(ds[|ds| - 1].name)] else [])
  }

  /**
   * The `replayLog` calls of the second loop, in driver order, stopping at the
   * first driver whose previous source or log is missing.
   */
  function ReplayActions(ds: seq<DriverDesc>, prev: RunHandle, cutoff: Option<int>): (r: RestartOutcome)
    ensures forall i :: 0 <= i < |r.actions| ==>
              r.actions[i].CallReplayLog? && r.actions[i].fromRun == prev.run && r.actions[i].cutoff == cutoff
    ensures |r.actions| <= |ds|
  {
    if |ds| == 0 then RestartOutcome([], None)
    else
      var init := ReplayActions(ds[..|ds| - 1], prev, cutoff);
      var d := ds[|ds| - 1];
      if init.failure.Some? || !d.replayLog then init
      else if d.name !in prev.sources then RestartOutcome(init.actions, Some(MissingSource(d.name)))
      else if !prev.sources[d.name] then RestartOutcome(init.actions, Some(MissingLog(d.name)))
      else RestartOutcome(init.actions + [CallReplayLog(d.name, prev.run, cutoff)], None)
  }

  /** `cb.start(...)`, called only when `cb` is an object. */
  function CallbackStart(cb: Callback, run: nat): (r: seq<Action>)
    ensures |r| <= 1
    ensures StartCallback(run) in r <==> cb == CallbackObject
    ensures forall a :: a in r ==> a == StartCallback(run)
  {
    if cb == CallbackObject then [StartCallback(run)] else []
  }

  /** `cb.stop(err)` when `cb` is an object, otherwise `cb(err)`. */
  function CallbackEnd(cb: Callback): (r: Action)
    ensures r == StopCallback <==> cb == CallbackObject
    ensures r == CallCallback <==> cb == CallbackFunction
  {
    match cb
    case CallbackObject => StopCallback
    case CallbackFunction => CallCallback
  }

  /** Everything restart does, over the drivers `ds` (with the time driver), up to and including building the new run. */
  function RestartHead(prev: RunHandle, newRun: nat, ds: seq<DriverDesc>, cb: Callback, isolate: Isolate): (r: seq<Action>)
    ensures |r| >= 2 && r[0] == DisposeRun(prev.run) && Setup(newRun) in r
  {
    [DisposeRun(prev.run)]
    + (if isolate == FunctionWithReset then [ResetIsolate] else [])
    + PreReplayActions(ds)
    + [Setup(newRun)]
    + CallbackStart(cb, newRun)
  }

  /**
   * A restart put together from its head, the outcome of the replay loop and
   * the post-replay calls: a failed replay or a failed virtual run stops
   * it after the replays.
   */
  function Assemble(head: seq<Action>, replay: RestartOutcome, post: seq<Action>, cb: Callback, runFails: bool): (r: RestartOutcome)
    ensures |head| <= |r.actions| && r.actions[..|head|] == head
    ensures r.failure.None? <==> replay.failure.None? && !runFails
    ensures replay.failure.Some? ==> r.failure == replay.failure
    ensures r.failure.None? ==> |r.actions| > 0 && r.actions[|r.actions| - 1] == Resume
  {
    if replay.failure.Some? then RestartOutcome(head + replay.actions, replay.failure)
    else if runFails then RestartOutcome(head + replay.actions, Some(VirtualRunError))
    else RestartOutcome(head + replay.actions + post + [CallbackEnd(cb), Resume], None)
  }

  /** The whole of one restart, building run `newRun` in place of `prev`. */
  function RestartTrace(prev: RunHandle, newRun: nat, given: seq<DriverDesc>, cb: Callback, isolate: Isolate,
                        cutoff: Option<int>, runFails: bool): (r: RestartOutcome)
    ensures |r.actions| >= 2 && r.actions[0] == DisposeRun(prev.run)
    ensures runFails ==> r.failure.Some?
  {
    var ds := WithTime(given);
    var wrapped := RewrapAll(ds);
    Assemble(RestartHead(prev, newRun, ds, cb, isolate), ReplayActions(wrapped, prev, cutoff),
             PostReplayActions(wrapped), cb, runFails)
  }

  /** Every action of `PreReplayActions(ds)` is a pre-replay call of a driver in `ds` that has the hook. */
  lemma {:induction false} PreReplayActionsShape(ds: seq<DriverDesc>)
    ensures forall i :: 0 <= i < |PreReplayActions(ds)| ==> PreReplayActions(ds)[i].CallPreReplay?
    ensures forall d :: d in ds && d.preReplay ==> CallPreReplay(d.name) in PreReplayActions(ds)
  {
    if |ds| > 0 {
      PreReplayActionsShape(ds[..|ds| - 1]);
      assert ds == ds[..|ds| - 1] + [ds[|ds| - 1]];
    }
  }

  /** Every action of `PostReplayActions(ds)` is a post-replay call of a driver in `ds` that has the hook. */
  lemma {:induction false} PostReplayActionsShape(ds: seq<DriverDesc>)
    ensures forall i :: 0 <= i < |PostReplayActions(ds)| ==> PostReplayActions(ds)[i].CallPostReplay?
    ensures forall d :: d in ds && d.postReplay ==> CallPostReplay(d.name) in PostReplayActions(ds)
  {
    if |ds| > 0 {
      PostReplayActionsShape(ds[..|ds| - 1]);
      assert ds == ds[..|ds| - 1] + [ds[|ds| - 1]];
    }
  }

  /** Where an action falls in restart's sequence; a restart's actions never go back to an earlier phase. */
  function Phase(a: Action): nat
  {
    match a
    case DisposeRun(_) => 0
    case ResetIsolate => 1
    case CallPreReplay(_) => 2
    case Setup(_) => 3
    case StartCallback(_) => 4
    case CallReplayLog(_, _, _) => 5
    case CallPostReplay(_) => 6
    case StopCallback => 7
    case CallCallback => 7
    case Resume => 8
  }

  predicate InPhaseOrder(t: seq<Action>)
  {
    forall i, j :: 0 <= i < j < |t| ==> Phase(t[i]) <= Phase(t[j])
  }

  predicate AllInPhase(s: seq<Action>, p: nat)
  {
    forall i :: 0 <= i < |s| ==> Phase(s[i]) == p
  }

  predicate PhasesAtMost(s: seq<Action>, p: nat)
  {
    forall i :: 0 <= i < |s| ==> Phase(s[i]) <= p
  }

  lemma ExtendPhaseOrder(a: seq<Action>, b: seq<Action>, p: nat)
    requires InPhaseOrder(a) && PhasesAtMost(a, p) && AllInPhase(b, p)
    ensures InPhaseOrder(a + b) && PhasesAtMost(a + b, p)
  {
    var t := a + b;
    forall i, j | 0 <= i < j < |t| ensures Phase(t[i]) <= Phase(t[j]) {
      if j < |a| {
        assert t[i] == a[i] && t[j] == a[j];
      } else if i < |a| {
        assert t[i] == a[i] && t[j] == b[j - |a|];
      } else {
        assert t[i] == b[i - |a|] && t[j] == b[j - |a|];
      }
    }
    forall i | 0 <= i < |t| ensures Phase(t[i]) <= p {
      if i < |a| { assert t[i] == a[i]; } else { assert t[i] == b[i - |a|]; }
    }
  }

  /** The head of a restart (dispose, reset, pre-replay hooks, setup, start) is in phase order. */
  lemma HeadInPhaseOrder(prev: RunHandle, newRun: nat, ds: seq<DriverDesc>, cb: Callback, isolate: Isolate)
    ensures InPhaseOrder(RestartHead(prev, newRun, ds, cb, isolate))
    ensures PhasesAtMost(RestartHead(prev, newRun, ds, cb, isolate), 4)
  {
    var reset := if isolate == FunctionWithReset then [ResetIsolate] else [];
    var pre := PreReplayActions(ds);
    PreReplayActionsShape(ds);
    var t0: seq<Action> := [DisposeRun(prev.run)];
    ExtendPhaseOrder(t0, reset, 1);
    ExtendPhaseOrder(t0 + reset, pre, 2);
    ExtendPhaseOrder(t0 + reset + pre, [Setup(newRun)], 3);
    ExtendPhaseOrder(t0 + reset + pre + [Setup(newRun)], CallbackStart(cb, newRun), 4);
  }

  /** Put together from ordered parts, a restart is in phase order and starts with its head. */
  lemma AssembleInPhaseOrder(head: seq<Action>, replay: RestartOutcome, post: seq<Action>, cb: Callback, runFails: bool)
    requires InPhaseOrder(head) && PhasesAtMost(head, 4)
    requires AllInPhase(replay.actions, 5) && AllInPhase(post, 6)
    ensures var t := Assemble(head, replay, post, cb, runFails).actions;
            InPhaseOrder(t) && |head| <= |t| && t[..|head|] == head
  {
    ExtendPhaseOrder(head, replay.actions, 5);
    var t1 := head + replay.actions;
    assert t1[..|head|] == head;
    if replay.failure.None? && !runFails {
      ExtendPhaseOrder(t1, post, 6);
      ExtendPhaseOrder(t1 + post, [CallbackEnd(cb)], 7);
      ExtendPhaseOrder(t1 + post + [CallbackEnd(cb)], [Resume], 8);
      var t := t1 + post + [CallbackEnd(cb), Resume];
      assert t1 + post + [CallbackEnd(cb)] + [Resume] == t;
      assert t[..|head|] == head;
    }
  }

  /** What a put-together restart contains: its head, its replays and, only on success, the rest. */
  lemma AssembleMembers(head: seq<Action>, replay: RestartOutcome, post: seq<Action>, cb: Callback, runFails: bool)
    ensures var out := Assemble(head, replay, post, cb, runFails);
            forall a :: a in out.actions <==>
              (|| a in head || a in replay.actions
               || (out.failure.None? && (a in post || a == CallbackEnd(cb) || a == Resume)))
  {
  }

  /**
   * Restart's ordering: the previous run is disposed before anything else,
   * then come the isolate reset, the pre-replay hooks, the building and
   * starting of the new graph, the log replays, the post-replay hooks, the
   * callback and the resumption of real time, never going back to an
   * earlier phase.
   */
  lemma RestartOrder(prev: RunHandle, newRun: nat, given: seq<DriverDesc>, cb: Callback, isolate: Isolate,
                     cutoff: Option<int>, runFails: bool)
    ensures var t := RestartTrace(prev, newRun, given, cb, isolate, cutoff, runFails).actions;
            && |t| > 0 && t[0] == DisposeRun(prev.run)
            && InPhaseOrder(t)
  {
    var ds := WithTime(given);
    var wrapped := RewrapAll(ds);
    var head := RestartHead(prev, newRun, ds, cb, isolate);
    var replay := ReplayActions(wrapped, prev, cutoff);
    HeadInPhaseOrder(prev, newRun, ds, cb, isolate);
    PostReplayActionsShape(wrapped);
    assert AllInPhase(replay.actions, 5);
    AssembleInPhaseOrder(head, replay, PostReplayActions(wrapped), cb, runFails);
    var t := Assemble(head, replay, PostReplayActions(wrapped), cb, runFails).actions;
    assert t[0] == t[..|head|][0] == head[0];
  }

  /** Only the head of a put-together restart can reset the isolate. */
  lemma AssembleResets(head: seq<Action>, replay: RestartOutcome, post: seq<Action>, cb: Callback, runFails: bool)
    requires AllInPhase(replay.actions, 5) && AllInPhase(post, 6)
    ensures ResetIsolate in Assemble(head, replay, post, cb, runFails).actions <==> ResetIsolate in head
  {
    AssembleMembers(head, replay, post, cb, runFails);
  }

  /** Of a restart's head, only the reset step can reset the isolate. */
  lemma HeadResets(prev: RunHandle, newRun: nat, ds: seq<DriverDesc>, cb: Callback, isolate: Isolate)
    ensures ResetIsolate in RestartHead(prev, newRun, ds, cb, isolate) <==> isolate == FunctionWithReset
  {
    var pre := PreReplayActions(ds);
    PreReplayActionsShape(ds);
    var reset := if isolate == FunctionWithReset then [ResetIsolate] else [];
    var start := [Setup(newRun)] + CallbackStart(cb, newRun);
    assert RestartHead(prev, newRun, ds, cb, isolate) == [DisposeRun(prev.run)] + reset + pre + start;
    assert ResetIsolate !in pre;
    assert ResetIsolate !in start;
  }

  /** `isolate.reset()` is called iff isolate is a function carrying `reset`. */
  lemma RestartResetsIsolate(prev: RunHandle, newRun: nat, given: seq<DriverDesc>, cb: Callback, isolate: Isolate,
                             cutoff: Option<int>, runFails: bool)
    ensures ResetIsolate in RestartTrace(prev, newRun, given, cb, isolate, cutoff, runFails).actions
            <==> isolate == FunctionWithReset
  {
    var ds := WithTime(given);
    var wrapped := RewrapAll(ds);
    var head := RestartHead(prev, newRun, ds, cb, isolate);
    var replay := ReplayActions(wrapped, prev, cutoff);
    var post := PostReplayActions(wrapped);
    assert RestartTrace(prev, newRun, given, cb, isolate, cutoff, runFails) == Assemble(head, replay, post, cb, runFails);
    PostReplayActionsShape(wrapped);
    assert AllInPhase(replay.actions, 5) && AllInPhase(post, 6);
    AssembleResets(head, replay, post, cb, runFails);
    HeadResets(prev, newRun, ds, cb, isolate);
  }

  /** Every driver's pre-replay hook is called, and the new graph is built, in every restart. */
  lemma RestartCallsPreReplay(prev: RunHandle, newRun: nat, given: seq<DriverDesc>, cb: Callback, isolate: Isolate,
                              cutoff: Option<int>, runFails: bool)
    ensures var t := RestartTrace(prev, newRun, given, cb, isolate, cutoff, runFails).actions;
            && (forall d :: d in WithTime(given) && d.preReplay ==> CallPreReplay(d.name) in t)
            && Setup(newRun) in t
  {
    var ds := WithTime(given);
    var wrapped := RewrapAll(ds);
    PreReplayActionsShape(ds);
    AssembleMembers(RestartHead(prev, newRun, ds, cb, isolate), ReplayActions(wrapped, prev, cutoff),
                    PostReplayActions(wrapped), cb, runFails);
  }

  /** In a put-together restart, every replay call comes from the replay loop. */
  lemma AssembleReplays(head: seq<Action>, replay: RestartOutcome, post: seq<Action>, cb: Callback, runFails: bool)
    requires PhasesAtMost(head, 4) && AllInPhase(post, 6)
    ensures var t := Assemble(head, replay, post, cb, runFails).actions;
            forall i :: 0 <= i < |t| && t[i].CallReplayLog? ==> t[i] in replay.actions
  {
    var t := Assemble(head, replay, post, cb, runFails).actions;
    var x := head + replay.actions;
    assert |x| <= |t| && t[..|x|] == x;
    forall i | 0 <= i < |t| && t[i].CallReplayLog? ensures t[i] in replay.actions {
      assert t[i] == x[i] ==> i < |head| || t[i] == replay.actions[i - |head|];
    }
  }

  /** Every log a restart replays is the replaced run's, with the requested cutoff. */
  lemma RestartReplaysPreviousRun(prev: RunHandle, newRun: nat, given: seq<DriverDesc>, cb: Callback, isolate: Isolate,
                                  cutoff: Option<int>, runFails: bool)
    ensures var t := RestartTrace(prev, newRun, given, cb, isolate, cutoff, runFails).actions;
            forall i :: 0 <= i < |t| && t[i].CallReplayLog? ==> t[i].fromRun == prev.run && t[i].cutoff == cutoff
  {
    var ds := WithTime(given);
    var wrapped := RewrapAll(ds);
    var replay := ReplayActions(wrapped, prev, cutoff);
    HeadInPhaseOrder(prev, newRun, ds, cb, isolate);
    PostReplayActionsShape(wrapped);
    assert AllInPhase(PostReplayActions(wrapped), 6);
    AssembleReplays(RestartHead(prev, newRun, ds, cb, isolate), replay, PostReplayActions(wrapped), cb, runFails);
  }

  /** Drivers with `replayLog` whose previous source exists and carries `log$`. */
  predicate CanReplay(d: DriverDesc, prev: RunHandle): (b: bool)
    ensures !d.replayLog ==> b
    ensures d.replayLog && d.name !in prev.sources ==> !b
    ensures d.replayLog && d.name in prev.sources ==> (b <==> prev.sources[d.name])
  {
    d.replayLog ==> d.name in prev.sources && prev.sources[d.name]
  }

  /**
   * The replay loop throws iff some driver with `replayLog` has no previous
   * source or no `log$`; when it does not, every such driver's log is
   * replayed with the given cutoff.
   */
  lemma {:induction false} ReplayActionsOutcome(ds: seq<DriverDesc>, prev: RunHandle, cutoff: Option<int>)
    ensures var r := ReplayActions(ds, prev, cutoff);
            && (r.failure.None? <==> forall i :: 0 <= i < |ds| ==> CanReplay(ds[i], prev))
            && (r.failure.None? ==>
                  forall i :: 0 <= i < |ds| && ds[i].replayLog ==> CallReplayLog(ds[i].name, prev.run, cutoff) in r.actions)
  {
    if |ds| > 0 {
      var init := ds[..|ds| - 1];
      ReplayActionsOutcome(init, prev, cutoff);
      assert forall i :: 0 <= i < |init| ==> ds[i] == init[i];
    }
  }

  /** A restart throws iff some driver's previous source or log is missing or the virtual run fails. */
  lemma RestartFailsIff(prev: RunHandle, newRun: nat, given: seq<DriverDesc>, cb: Callback, isolate: Isolate,
                        cutoff: Option<int>, runFails: bool)
    ensures var ds := WithTime(given);
            RestartTrace(prev, newRun, given, cb, isolate, cutoff, runFails).failure.None?
            <==> !runFails && forall i :: 0 <= i < |ds| ==> CanReplay(ds[i], prev)
  {
    var ds := WithTime(given);
    var wrapped := RewrapAll(ds);
    ReplayActionsOutcome(wrapped, prev, cutoff);
    assert forall i :: 0 <= i < |ds| ==> (CanReplay(ds[i], prev) <==> CanReplay(wrapped[i], prev));
  }

  /** A put-together restart that throws goes no further than the replays. */
  lemma AssembleFailureStops(head: seq<Action>, replay: RestartOutcome, post: seq<Action>, cb: Callback, runFails: bool)
    requires PhasesAtMost(head, 4) && AllInPhase(replay.actions, 5)
    requires Assemble(head, replay, post, cb, runFails).failure.Some?
    ensures forall a :: a in Assemble(head, replay, post, cb, runFails).actions ==>
              !a.CallPostReplay? && !a.StopCallback? && !a.CallCallback? && !a.Resume?
  {
    var t := head + replay.actions;
    assert Assemble(head, replay, post, cb, runFails).actions == t;
    forall a | a in t ensures !a.CallPostReplay? && !a.StopCallback? && !a.CallCallback? && !a.Resume? {
      var i :| 0 <= i < |t| && t[i] == a;
      if i < |head| { assert t[i] == head[i]; } else { assert t[i] == replay.actions[i - |head|]; }
    }
  }

  /** When a restart throws, no post-replay hook, no callback end and no resumption happen. */
  lemma RestartFailureStops(prev: RunHandle, newRun: nat, given: seq<DriverDesc>, cb: Callback, isolate: Isolate,
                            cutoff: Option<int>, runFails: bool)
    requires RestartTrace(prev, newRun, given, cb, isolate, cutoff, runFails).failure.Some?
    ensures var t := RestartTrace(prev, newRun, given, cb, isolate, cutoff, runFails).actions;
            forall a :: a in t ==> !a.CallPostReplay? && !a.StopCallback? && !a.CallCallback? && !a.Resume?
  {
    var ds := WithTime(given);
    var wrapped := RewrapAll(ds);
    var head := RestartHead(prev, newRun, ds, cb, isolate);
    var replay := ReplayActions(wrapped, prev, cutoff);
    var post := PostReplayActions(wrapped);
    assert RestartTrace(prev, newRun, given, cb, isolate, cutoff, runFails) == Assemble(head, replay, post, cb, runFails);
    HeadInPhaseOrder(prev, newRun, ds, cb, isolate);
    assert AllInPhase(replay.actions, 5);
    AssembleFailureStops(head, replay, post, cb, runFails);
  }

  /** When a restart succeeds, every driver's post-replay hook is called and the trace ends with the callback and the resumption. */
  lemma RestartSuccessCompletes(prev: RunHandle, newRun: nat, given: seq<DriverDesc>, cb: Callback, isolate: Isolate,
                                cutoff: Option<int>, runFails: bool)
    requires RestartTrace(prev, newRun, given, cb, isolate, cutoff, runFails).failure.None?
    ensures var t := RestartTrace(prev, newRun, given, cb, isolate, cutoff, runFails).actions;
            && (forall d :: d in WithTime(given) && d.postReplay ==> CallPostReplay(d.name) in t)
            && |t| >= 2 && t[|t| - 2..] == [CallbackEnd(cb), Resume]
  {
    var ds := WithTime(given);
    var wrapped := RewrapAll(ds);
    var post := PostReplayActions(wrapped);
    AssembleMembers(RestartHead(prev, newRun, ds, cb, isolate), ReplayActions(wrapped, prev, cutoff), post, cb, runFails);
    PostReplayActionsShape(wrapped);
    forall d | d in ds && d.postReplay ensures CallPostReplay(d.name) in post {
      var i :| 0 <= i < |ds| && ds[i] == d;
      assert wrapped[i] in wrapped && wrapped[i].postReplay && wrapped[i].name == d.name;
    }
  }

  /** The gate input one action gives the driver named `name`: its own pre- and post-replay hook calls. */
  function HookInput(a: Action, name: string): seq<SinkGate.GateInput>
  {
    if a == CallPreReplay(name) then [SinkGate.PreReplay]
    else if a == CallPostReplay(name) then [SinkGate.PostReplay]
    else []
  }

  /** The sink-gate inputs the driver named `name` receives from a trace. */
  function HookInputs(t: seq<Action>, name: string): seq<SinkGate.GateInput>
  {
    if |t| == 0 then [] else HookInput(t[0], name) + HookInputs(t[1..], name)
  }

  lemma HookInputsSingle(a: Action, name: string)
    ensures HookInputs([a], name) == HookInput(a, name)
  {
    assert [a][1..] == [];
  }

  lemma {:induction false} HookInputsAppend(a: seq<Action>, b: seq<Action>, name: string)
    ensures HookInputs(a + b, name) == HookInputs(a, name) + HookInputs(b, name)
  {
    if |a| == 0 {
      assert a + b == b;
    } else {
      assert (a + b)[1..] == a[1..] + b;
      HookInputsAppend(a[1..], b, name);
    }
  }

  /** Actions that are not hook calls give a driver no gate input. */
  lemma {:induction false} HookInputsNone(t: seq<Action>, name: string)
    requires forall i :: 0 <= i < |t| ==> !t[i].CallPreReplay? && !t[i].CallPostReplay?
    ensures HookInputs(t, name) == []
  {
    if |t| > 0 {
      HookInputsNone(t[1..], name);
    }
  }

  /** With distinct driver names, a driver's pre-replay hook is called once if it has one, else never. */
  lemma {:induction false} HookInputsOfPreReplay(ds: seq<DriverDesc>, k: nat)
    requires DistinctNames(ds) && k < |ds|
    ensures HookInputs(PreReplayActions(ds), ds[k].name)
            == (if ds[k].preReplay then [SinkGate.PreReplay] else [])
  {
    var n := |ds| - 1;
    var name := ds[k].name;
    var init := ds[..n];
    var rest := HookInputs(PreReplayActions(init), name);
    var own: seq<SinkGate.GateInput> := if ds[n].preReplay && ds[n].name == name then [SinkGate.PreReplay] else [];
    HookInputsOfPreReplayStep(ds, name);
    assert HookInputs(PreReplayActions(ds), name) == rest + own;
    DistinctInit(ds);
    if k < n {
      assert own == [];
      assert init[k] == ds[k];
      HookInputsOfPreReplay(init, k);
    } else {
      if n > 0 {
        HookInputsOfPreReplayAbsent(init, name);
      }
      assert rest == [];
    }
  }


  lemma {:induction false} HookInputsOfPreReplayAbsent(ds: seq<DriverDesc>, name: string)
    requires forall i :: 0 <= i < |ds| ==> ds[i].name != name
    ensures HookInputs(PreReplayActions(ds), name) == []
  {
    if |ds| > 0 {
      HookInputsOfPreReplayStep(ds, name);
      HookInputsOfPreReplayAbsent(ds[..|ds| - 1], name);
    }
  }

  /** The last driver adds its own pre-replay input, and only to itself. */
  lemma HookInputsOfPreReplayStep(ds: seq<DriverDesc>, name: string)
    requires |ds| > 0
    ensures var d := ds[|ds| - 1];
            HookInputs(PreReplayActions(ds), name)
            == HookInputs(PreReplayActions(ds[..|ds| - 1]), name)
               + (if d.preReplay && d.name == name then [SinkGate.PreReplay] else [])
  {
    var n := |ds| - 1;
    var last: seq<Action> := if ds[n].preReplay then [CallPreReplay(ds[n].name)] else [];
    assert PreReplayActions(ds) == PreReplayActions(ds[..n]) + last;
    HookInputsAppend(PreReplayActions(ds[..n]), last, name);
    if ds[n].preReplay {
      HookInputsSingle(CallPreReplay(ds[n].name), name);
    }
  }


  /** With distinct driver names, a driver's post-replay hook is called once if it has one, else never. */
  lemma {:induction false} HookInputsOfPostReplay(ds: seq<DriverDesc>, k: nat)
    requires DistinctNames(ds) && k < |ds|
    ensures HookInputs(PostReplayActions(ds), ds[k].name)
            == (if ds[k].postReplay then [SinkGate.PostReplay] else [])
  {
    var n := |ds| - 1;
    var name := ds[k].name;
    var init := ds[..n];
    var rest := HookInputs(PostReplayActions(init), name);
    var own: seq<SinkGate.GateInput> := if ds[n].postReplay && ds[n].name == name then [SinkGate.PostReplay] else [];
    HookInputsOfPostReplayStep(ds, name);
    assert HookInputs(PostReplayActions(ds), name) == rest + own;
    DistinctInit(ds);
    if k < n {
      assert own == [];
      assert init[k] == ds[k];
      HookInputsOfPostReplay(init, k);
    } else {
      if n > 0 {
        HookInputsOfPostReplayAbsent(init, name);
      }
      assert rest == [];
    }
  }


  lemma {:induction false} HookInputsOfPostReplayAbsent(ds: seq<DriverDesc>, name: string)
    requires forall i :: 0 <= i < |ds| ==> ds[i].name != name
    ensures HookInputs(PostReplayActions(ds), name) == []
  {
    if |ds| > 0 {
      HookInputsOfPostReplayStep(ds, name);
      HookInputsOfPostReplayAbsent(ds[..|ds| - 1], name);
    }
  }

  /** The last driver adds its own post-replay input, and only to itself. */
  lemma HookInputsOfPostReplayStep(ds: seq<DriverDesc>, name: string)
    requires |ds| > 0
    ensures var d := ds[|ds| - 1];
            HookInputs(PostReplayActions(ds), name)
            == HookInputs(PostReplayActions(ds[..|ds| - 1]), name)
               + (if d.postReplay && d.name == name then [SinkGate.PostReplay] else [])
  {
    var n := |ds| - 1;
    var last: seq<Action> := if ds[n].postReplay then [CallPostReplay(ds[n].name)] else [];
    assert PostReplayActions(ds) == PostReplayActions(ds[..n]) + last;
    HookInputsAppend(PostReplayActions(ds[..n]), last, name);
    if ds[n].postReplay {
      HookInputsSingle(CallPostReplay(ds[n].name), name);
    }
  }


  /** Adding the time driver to drivers without one keeps the names distinct and the other drivers in place. */
  lemma WithTimeDistinct(given: seq<DriverDesc>)
    requires DistinctNames(given)
    requires forall i :: 0 <= i < |given| ==> given[i].name != TimeName
    ensures WithTime(given) == given + [TimeDriver]
    ensures DistinctNames(WithTime(given)) && DistinctNames(RewrapAll(WithTime(given)))
  {
  }

  /** Hook-free actions around a segment add no gate inputs. */
  lemma HookInputsSandwich(a: seq<Action>, mid: seq<Action>, b: seq<Action>, name: string)
    requires forall i :: 0 <= i < |a| ==> !a[i].CallPreReplay? && !a[i].CallPostReplay?
    requires forall i :: 0 <= i < |b| ==> !b[i].CallPreReplay? && !b[i].CallPostReplay?
    ensures HookInputs(a + mid + b, name) == HookInputs(mid, name)
  {
    HookInputsNone(a, name);
    HookInputsNone(b, name);
    HookInputsAppend(a, mid, name);
    HookInputsAppend(a + mid, b, name);
  }

  /** In a put-together restart a driver receives the hooks of the head and, only on success, those of `post`. */
  lemma AssembleHookInputs(head: seq<Action>, replay: RestartOutcome, post: seq<Action>, cb: Callback, runFails: bool,
                           name: string)
    requires forall i :: 0 <= i < |replay.actions| ==> replay.actions[i].CallReplayLog?
    ensures var out := Assemble(head, replay, post, cb, runFails);
            HookInputs(out.actions, name)
            == HookInputs(head, name) + (if out.failure.None? then HookInputs(post, name) else [])
  {
    var out := Assemble(head, replay, post, cb, runFails);
    HookInputsNone(replay.actions, name);
    var x := head + replay.actions;
    HookInputsAppend(head, replay.actions, name);
    assert HookInputs(x, name) == HookInputs(head, name);
    if out.failure.None? {
      var end := [CallbackEnd(cb), Resume];
      HookInputsNone(end, name);
      HookInputsAppend(x, post, name);
      HookInputsAppend(x + post, end, name);
      assert out.actions == x + post + end;
    } else {
      assert out.actions == x;
    }
  }

  /** In the head of a restart, a driver with a pre-replay hook receives exactly that hook. */
  lemma HeadHookInputs(prev: RunHandle, newRun: nat, ds: seq<DriverDesc>, cb: Callback, isolate: Isolate, k: nat)
    requires DistinctNames(ds) && k < |ds| && ds[k].preReplay
    ensures HookInputs(RestartHead(prev, newRun, ds, cb, isolate), ds[k].name) == [SinkGate.PreReplay]
  {
    var before := [DisposeRun(prev.run)] + (if isolate == FunctionWithReset then [ResetIsolate] else []);
    var after := [Setup(newRun)] + CallbackStart(cb, newRun);
    var pre := PreReplayActions(ds);
    assert RestartHead(prev, newRun, ds, cb, isolate) == before + pre + after;
    assert forall i :: 0 <= i < |before| ==> !before[i].CallPreReplay? && !before[i].CallPostReplay?;
    assert forall i :: 0 <= i < |after| ==> !after[i].CallPreReplay? && !after[i].CallPostReplay?;
    HookInputsSandwich(before, pre, after, ds[k].name);
    HookInputsOfPreReplay(ds, k);
  }

  /**
   * What a restartable driver's sink gate sees of one restart: the
   * pre-replay hook, then, only when the restart succeeds, the post-replay
   * hook.
   */
  lemma RestartGateInputs(prev: RunHandle, newRun: nat, given: seq<DriverDesc>, cb: Callback, isolate: Isolate,
                          cutoff: Option<int>, runFails: bool, k: nat)
    requires DistinctNames(given) && k < |given|
    requires forall i :: 0 <= i < |given| ==> given[i].name != TimeName
    requires given[k].preReplay && given[k].postReplay
    ensures var out := RestartTrace(prev, newRun, given, cb, isolate, cutoff, runFails);
            HookInputs(out.actions, given[k].name)
            == (if out.failure.None? then [SinkGate.PreReplay, SinkGate.PostReplay] else [SinkGate.PreReplay])
  {
    var name := given[k].name;
    WithTimeDistinct(given);
    var ds := WithTime(given);
    assert ds[k] == given[k];
    var wrapped := RewrapAll(ds);
    var replay := ReplayActions(wrapped, prev, cutoff);
    HeadHookInputs(prev, newRun, ds, cb, isolate, k);
    HookInputsOfPostReplay(wrapped, k);
    AssembleHookInputs(RestartHead(prev, newRun, ds, cb, isolate), replay, PostReplayActions(wrapped), cb, runFails, name);
  }

  /** The pre-replay hook starts a replay, and the post-replay hook ends it. */
  lemma HookRun(opts: SinkGate.Options, st: SinkGate.GateState, completed: bool)
    ensures var inputs := if completed then [SinkGate.PreReplay, SinkGate.PostReplay] else [SinkGate.PreReplay];
            SinkGate.Run(opts, st, inputs).state.replaying == !completed
  {
    var both: seq<SinkGate.GateInput> := [SinkGate.PreReplay, SinkGate.PostReplay];
    assert both[1..] == [SinkGate.PostReplay] && both[1..][1..] == [];
    var one: seq<SinkGate.GateInput> := [SinkGate.PreReplay];
    assert one[1..] == [];
  }

  /**
   * A restartable driver's sinks are held back after a restart iff the
   * restart threw: a successful restart ends its replay, a failed one
   * leaves it replaying.
   */
  lemma RestartGateReplaying(prev: RunHandle, newRun: nat, given: seq<DriverDesc>, cb: Callback, isolate: Isolate,
                             cutoff: Option<int>, runFails: bool, k: nat,
                             opts: SinkGate.Options, st: SinkGate.GateState)
    requires DistinctNames(given) && k < |given|
    requires forall i :: 0 <= i < |given| ==> given[i].name != TimeName
    requires given[k].preReplay && given[k].postReplay
    ensures var out := RestartTrace(prev, newRun, given, cb, isolate, cutoff, runFails);
            SinkGate.Run(opts, st, HookInputs(out.actions, given[k].name)).state.replaying == out.failure.Some?
  {
    RestartGateInputs(prev, newRun, given, cb, isolate, cutoff, runFails, k);
    var out := RestartTrace(prev, newRun, given, cb, isolate, cutoff, runFails);
    HookRun(opts, st, out.failure.None?);
  }

  /** Once the replay loop has thrown, later drivers change nothing. */
  lemma {:induction false} ReplayActionsStops(ds: seq<DriverDesc>, i: nat, prev: RunHandle, cutoff: Option<int>)
    requires i <= |ds| && ReplayActions(ds[..i], prev, cutoff).failure.Some?
    ensures ReplayActions(ds, prev, cutoff) == ReplayActions(ds[..i], prev, cutoff)
    decreases |ds| - i
  {
    if i < |ds| {
      assert ds[..i + 1][..i] == ds[..i];
      ReplayActionsStops(ds, i + 1, prev, cutoff);
    } else {
      assert ds[..i] == ds;
    }
  }

  /** The first loop of restart: rewrap every driver, calling each pre-replay hook in driver order. */
  method RewrapDrivers(ds: seq<DriverDesc>) returns (wrapped: seq<DriverDesc>, pre: seq<Action>)
    ensures wrapped == RewrapAll(ds) && pre == PreReplayActions(ds)
    ensures forall d :: d in wrapped ==> !d.preReplay && d.takesTime
  {
    wrapped := ds;
    pre := [];
    var i := 0;
    while i < |ds|
      invariant 0 <= i <= |ds| && |wrapped| == |ds|
      invariant pre == PreReplayActions(ds[..i])
      invariant forall j :: 0 <= j < |ds| ==> wrapped[j] == if j < i then Rewrap(ds[j]) else ds[j]
    {
      assert ds[..i + 1][..i] == ds[..i];
      if ds[i].preReplay {
        pre := pre + [CallPreReplay(ds[i].name)];
      }
      wrapped := wrapped[i := Rewrap(ds[i])];
      i := i + 1;
    }
    assert ds[..|ds|] == ds;
    assert forall j :: 0 <= j < |ds| ==> wrapped[j] == RewrapAll(ds)[j];
  }

  /**
   * The second loop of restart: replay the previous log of every driver
   * with `replayLog`, throwing at the first whose previous source or log is
   * missing.
   */
  method ReplayLogs(ds: seq<DriverDesc>, prev: RunHandle, cutoff: Option<int>) returns (replay: RestartOutcome)
    ensures replay == ReplayActions(ds, prev, cutoff)
    ensures replay.failure.None? <==> forall i :: 0 <= i < |ds| ==> CanReplay(ds[i], prev)
  {
    replay := RestartOutcome([], None);
    var i := 0;
    while i < |ds| && replay.failure.None?
      invariant 0 <= i <= |ds|
      invariant replay == ReplayActions(ds[..i], prev, cutoff)
    {
      assert ds[..i + 1][..i] == ds[..i];
      var d := ds[i];
      if d.replayLog {
        if d.name !in prev.sources {
          replay := RestartOutcome(replay.actions, Some(MissingSource(d.name)));
        } else if !prev.sources[d.name] {
          replay := RestartOutcome(replay.actions, Some(MissingLog(d.name)));
        } else {
          replay := RestartOutcome(replay.actions + [CallReplayLog(d.name, prev.run, cutoff)], None);
        }
      }
      i := i + 1;
    }
    if replay.failure.Some? {
      ReplayActionsStops(ds, i, prev, cutoff);
    } else {
      assert ds[..|ds|] == ds;
    }
    ReplayActionsOutcome(ds, prev, cutoff);
  }

  /** The loop after a successful virtual run: call each post-replay hook in driver order. */
  method PostReplays(ds: seq<DriverDesc>) returns (post: seq<Action>)
    ensures post == PostReplayActions(ds)
    ensures forall d :: d in ds && d.postReplay ==> CallPostReplay(d.name) in post
  {
    post := [];
    var i := 0;
    while i < |ds|
      invariant 0 <= i <= |ds|
      invariant post == PostReplayActions(ds[..i])
    {
      assert ds[..i + 1][..i] == ds[..i];
      if ds[i].postReplay {
        post := post + [CallPostReplay(ds[i].name)];
      }
      i := i + 1;
    }
    assert ds[..|ds|] == ds;
    PostReplayActionsShape(ds);
  }

  /** The head of restart: dispose, reset, the first loop over the drivers, setup and start. */
  method RestartHeadActions(prev: RunHandle, newRun: nat, ds: seq<DriverDesc>, cb: Callback, isolate: Isolate)
    returns (head: seq<Action>, wrapped: seq<DriverDesc>)
    ensures head == RestartHead(prev, newRun, ds, cb, isolate)
    ensures wrapped == RewrapAll(ds)
  {
    head := [DisposeRun(prev.run)];
    if isolate == FunctionWithReset {
      head := head + [ResetIsolate];
    }
    var pre;
    wrapped, pre := RewrapDrivers(ds);
    head := head + pre + [Setup(newRun)] + CallbackStart(cb, newRun);
  }

  /** All of restart, building run `newRun`: the actions it takes and the drivers map it leaves. */
  method RestartActions(prev: RunHandle, newRun: nat, given: seq<DriverDesc>, cb: Callback, isolate: Isolate,
                        cutoff: Option<int>, runFails: bool)
    returns (out: RestartOutcome, wrapped: seq<DriverDesc>)
    ensures out == RestartTrace(prev, newRun, given, cb, isolate, cutoff, runFails)
    ensures wrapped == RewrapAll(WithTime(given))
  {
    var ds := WithTime(given);  // `drivers.Time = () => realTime`
    var head;
    head, wrapped := RestartHeadActions(prev, newRun, ds, cb, isolate);
    var replay := ReplayLogs(wrapped, prev, cutoff);
    if replay.failure.Some? {
      out := RestartOutcome(head + replay.actions, replay.failure);
    } else if runFails {
      out := RestartOutcome(head + replay.actions, Some(VirtualRunError));
    } else {
      var post := PostReplays(wrapped);
      out := RestartOutcome(head + replay.actions + post + [CallbackEnd(cb), Resume], None);
    }
  }

  /** The loop of rerunner's first run: every driver is wrapped to take the real time, keeping no hook. */
  method FirstWrapDrivers(ds: seq<DriverDesc>) returns (wrapped: seq<DriverDesc>)
    ensures wrapped == FirstWrapAll(ds)
    ensures forall d :: d in wrapped ==> !d.preReplay && !d.replayLog && !d.postReplay && d.takesTime
  {
    wrapped := ds;
    var i := 0;
    while i < |ds|
      invariant 0 <= i <= |ds| && |wrapped| == |ds|
      invariant forall j :: 0 <= j < |ds| ==> wrapped[j] == if j < i then FirstWrap(ds[j]) else ds[j]
    {
      wrapped := wrapped[i := FirstWrap(ds[i])];
      i := i + 1;
    }
  }

  /** The first run's callback: `cb.start(...)` then `cb.stop()`, or `cb()`. */
  function FirstRunCallback(cb: Callback, run: nat): (r: seq<Action>)
    ensures |r| >= 1 && r[|r| - 1] == CallbackEnd(cb)
    ensures StartCallback(run) in r <==> cb == CallbackObject
    ensures cb == CallbackObject ==> r == [StartCallback(run), StopCallback]
    ensures cb == CallbackFunction ==> r == [CallCallback]
  {
    CallbackStart(cb, run) + [CallbackEnd(cb)]
  }

  /**
   * The state `rerunner` closes over: whether the next call is the first,
   * the current run, the drivers map of the last call, and the trace of
   * everything done so far. `runs` numbers the runs built. The `isolate`
   * argument is fixed when the rerunner is made.
   */
  class Rerunner {
    const isolate: Isolate
    var first: bool
    var handle: Option<RunHandle>
    var drivers: seq<DriverDesc>
    var trace: seq<Action>
    var runs: nat

    ghost predicate Valid()
      reads this
    {
      && (first <==> handle.None?)
      && (handle.Some? ==> handle.value.run < runs)
    }

    constructor (isolate: Isolate)
      ensures Valid() && first && handle == None && drivers == [] && trace == [] && runs == 0
      ensures this.isolate == isolate
    {
      this.isolate := isolate;
      first := true;
      handle := None;
      drivers := [];
      trace := [];
      runs := 0;
    }

    /**
     * `restart` with `prev` as the run to replace: the new run is numbered
     * `runs`. On success it returns the new run's handle; when a previous
     * log is missing or the virtual run fails it throws. Either way the new
     * run has been built and the drivers map rewrapped.
     */
    method Restart(given: seq<DriverDesc>, cb: Callback, isolate: Isolate, prev: RunHandle,
                   cutoff: Option<int>, newSources: map<string, bool>, runFails: bool)
      returns (r: Result<RunHandle>)
      modifies this
      ensures var out := RestartTrace(prev, old(runs), given, cb, isolate, cutoff, runFails);
              && trace == old(trace) + out.actions
              && (out.failure.None? ==> r == Ok(RunHandle(old(runs), newSources)))
              && (out.failure.Some? ==> r == Err(out.failure.value))
      ensures drivers == RewrapAll(WithTime(given))
      ensures runs == old(runs) + 1
      ensures first == old(first) && handle == old(handle)
    {
      var out, wrapped := RestartActions(prev, runs, given, cb, isolate, cutoff, runFails);
      drivers := wrapped;
      trace := trace + out.actions;
      r := if out.failure.None? then Ok(RunHandle(runs, newSources)) else Err(out.failure.value);
      runs := runs + 1;
    }

    /**
     * A call of the function `rerunner` returns. The first call builds the
     * run plainly, with drivers that keep no hooks; every later call
     * restarts the current run. The handle is replaced only when the call
     * returns.
     */
    method Rerun(given: seq<DriverDesc>, cb: Callback, cutoff: Option<int>,
                 newSources: map<string, bool>, runFails: bool)
      returns (r: Result<RunHandle>)
      requires Valid()
      modifies this
      ensures Valid() && !first && runs == old(runs) + 1
      ensures old(first) ==>
                && trace == old(trace) + [Setup(old(runs))] + FirstRunCallback(cb, old(runs))
                && drivers == FirstWrapAll(WithTime(given))
                && r == Ok(RunHandle(old(runs), newSources))
                && handle == Some(r.value)
      ensures !old(first) ==>
                var out := RestartTrace(old(handle).value, old(runs), given, cb, isolate, cutoff, runFails);
                && trace == old(trace) + out.actions
                && drivers == RewrapAll(WithTime(given))
                && (out.failure.None? ==> r == Ok(RunHandle(old(runs), newSources)) && handle == Some(r.value))
                && (out.failure.Some? ==> r == Err(out.failure.value) && handle == old(handle))
    {
      if first {
        var wrapped := FirstWrapDrivers(WithTime(given));
        drivers := wrapped;
        var run := runs;
        runs := runs + 1;
        handle := Some(RunHandle(run, newSources));
        first := false;
        trace := trace + [Setup(run)] + FirstRunCallback(cb, run);
        r := Ok(handle.value);
      } else {
        var prev := handle.value;
        r := Restart(given, cb, isolate, prev, cutoff, newSources, runFails);
        if r.Ok? {
          handle := Some(r.value);
        }
      }
    }
  }
}
