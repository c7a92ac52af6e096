# cycle-restart: the record/replay engine, modelled in Dafny

cycle-restart lets a running Cycle.js application be torn down and rebuilt
without repeating its external effects. Each driver is wrapped by
`restartable(driver, opts)`. The wrapper records every event the driver's
source emits into a log, keyed by an identifier derived from how the
application navigated the source. It registers a live channel per identifier
and gates the application's writes to the real driver. `restart` disposes the
old run, builds a new one and replays the old log into the new channels. It
then lets the writes through again. `rerunner` builds the first run plainly
and sends every later run through `restart`.

The model has seven modules:

- `Common` (`common.dfy`) holds `Option` and the opaque event payload.
- `Identifier` (`identifier.dfy`) covers scopes, the `'/'`-join that makes a
  leaf identifier, its inverse `Split`, and `':root'`.
- `EventLog` (`event_log.dfy`) covers log entries, the log fold, the replay
  cutoff filter, and the virtual scheduler as a stable sort by time. It also
  has routing by identifier.
- `SinkGate` (`sink_gate.dfy`) is the per-instance sink gate. It is a pure
  state machine over the pause value, the `replaying` flag, the options and
  the last-sink buffer.
- `SourceTree` (`source_tree.dfy`) is the structural visitor of
  `wrapSource`. It also holds the branch decision an accessor wrapper and the
  instrumented driver take on a returned value.
- `Restartable` (`restartable.dfy`) has the class `RestartableDriver`, one
  `restartable(...)` instance. Its fields are the log, the `streams` registry,
  the channels (by index), the recording subscriptions and the gate's closure
  state. Its methods update them in place.
- `Restart` (`restart.dfy`) records `restart` as an ordered trace of the
  hooks it calls, and the class `Rerunner` holds `rerunner`'s closure state.

Streams are event sequences and channels are indices into a sequence of
channel histories. Times are integers. The clock, the real drivers, the
application and the previous run's sources enter only as parameters.

Replay fires entries through a virtual scheduler at their recorded times.
The scheduler is stable on ties: entries with equal times fire in log order
(`EventLog.SortByTimeStable`). On a time-ordered log the fired order is the
log's order (`EventLog.FiredOrder`). The cutoff is inclusive
(`time <= cutoff`).

## Model

| member | source | states |
|---|---|---|
| Identifier.Extend | src/restartable.js:92 | An accessor call's scope is the parent scope followed by the call's arguments. |
| Identifier.Join | src/restartable.js:104 | The identifier starts with the first scope element, followed by `'/'` when the scope has more than one. |
| Identifier.Contains | src/restartable.js:96 | An occurrence needs the substring to be no longer than the string, and the empty substring always occurs. |
| Identifier.ContainsIff | src/restartable.js:96 | The `indexOf(...) !== -1` test holds iff the substring occurs at some position. |
| Identifier.JoinAppend | src/restartable.js:92-104 | The identifier of a nested scope is the parent's identifier, `'/'` and the child's. |
| Identifier.SplitJoin | src/restartable.js:104 | Round trip: splitting the identifier of a separator-free scope at `'/'` gives back the scope. |
| Identifier.JoinSplit | src/restartable.js:104 | Round trip: every identifier is the join of its split. |
| Identifier.JoinInjective | src/restartable.js:104 | For non-empty separator-free scopes, two navigations get the same identifier iff they pass the same arguments. |
| Identifier.SeparatorCollision | src/restartable.js:104 | Arguments that contain `'/'` can make two different navigations share an identifier. |
| Identifier.EmptyScopeCollision | src/restartable.js:104 | A call with no arguments and a call with one empty argument share the identifier `''`, which is why `JoinInjective` needs non-empty scopes. |
| EventLog.FoldLog | src/restartable.js:135-138 | The fold yields one log entry per arrival. |
| EventLog.FoldLogIsArrivals | src/restartable.js:135-142 | The log fold keeps every entry, in arrival order, and adds nothing. |
| EventLog.Emissions | src/restartable.js:136-138 | The remembered log emits the seed and then one value per arrival. |
| EventLog.EmissionIsPrefix | src/restartable.js:135-145 | The k-th emission is the first k arrivals. The log starts as `[]`, and a late subscriber sees the whole log. |
| EventLog.EmissionAppends | src/restartable.js:137 | Consecutive emissions differ by exactly the new entry, appended at the end. |
| EventLog.ReplaySchedule | src/restartable.js:223 | The schedule is no longer than the snapshot, and every scheduled entry is from the snapshot and passes the cutoff. |
| EventLog.ReplayScheduleComplete | src/restartable.js:223 | Every snapshot entry that passes the cutoff is scheduled. |
| EventLog.ReplayScheduleAll | src/restartable.js:223 | With no cutoff the whole snapshot is scheduled, in log order. |
| EventLog.ReplayScheduleIsPrefix | src/restartable.js:223 | On a time-ordered log the cutoff keeps exactly a prefix, and everything after it is later than the cutoff. |
| EventLog.EventsForAppend | src/restartable.js:215-216 | Routing by identifier distributes over concatenation. |
| EventLog.MissingIn | src/restartable.js:215-218 | At most one report per fired entry, and no reported identifier is registered. |
| EventLog.MissingInComplete | src/restartable.js:215-218 | Every fired entry whose identifier is not registered is reported. |
| EventLog.ScheduleRoutesHistory | src/restartable.js:215-223 | The schedule routes to an identifier exactly its logged events that pass the cutoff, in log order, and all of them with no cutoff. |
| EventLog.ReplayRoutesHistory | src/restartable.js:211-224 | On a time-ordered log, the events the scheduler fires to an identifier are exactly its logged events that pass the cutoff, in log order, and all of them with no cutoff. |
| EventLog.FilterKept | src/restartable.js:223 | The filtered log is no longer than the log, and every entry it keeps passes the cutoff (`time <= cutoff`, or no cutoff at all). |
| EventLog.FilterKeptIsSchedule | src/restartable.js:223 | Filtering from the front and from the back agree. |
| EventLog.Insert | src/restartable.js:214 | Scheduling one more entry adds exactly that entry to the pending set. |
| EventLog.SortByTime | src/restartable.js:214 | The fired order is a permutation of the scheduled entries. |
| EventLog.InsertSorted | src/restartable.js:214 | Inserting into a time-ordered schedule keeps it time-ordered. |
| EventLog.SortByTimeSorted | src/restartable.js:214 | The scheduler fires entries in time order, each exactly once. |
| EventLog.SortByTimeKeepsSorted | src/restartable.js:214 | A time-ordered schedule fires in scheduling order. |
| EventLog.ReplayScheduleSorted | src/restartable.js:223 | Filtering a time-ordered log keeps it time-ordered. |
| EventLog.FiredOrder | src/restartable.js:211-224 | On a time-ordered log, the fired order is the filtered snapshot itself. |
| EventLog.InsertStable | src/restartable.js:214 | Scheduling an entry puts it after every pending entry with the same time. |
| EventLog.SortByTimeStable | src/restartable.js:214 | The scheduler is stable: entries with equal times fire in the order they were scheduled. |
| SinkGate.Forwards | src/restartable.js:3-9 | With `pauseSinksWhileReplaying`, a write passes iff the latest pause value is `true` and the driver is not replaying. Without it, a write passes iff the pause value is `true`. |
| SinkGate.StepFeeding | src/restartable.js:157-178 | One gate input, whatever feeds the buffer: a write is forwarded iff `Forwards` allows it. Every input but `onPostReplay` sends at most one write, and a call with a sink while replaying (last-sink option on) adds one waiting flush. `onPostReplay` sends no more writes than there are waiting flushes. `onPreReplay` sets `replaying` and forwards nothing, and `onPostReplay` clears it. |
| SinkGate.Step | src/restartable.js:154-178 | A step of the corrected gate: at most one write comes out, except that `onPostReplay` sends up to one per waiting flush. A write that passes the pause filter becomes the buffered last write. |
| SinkGate.Run | src/restartable.js:157-178 | The corrected gate forwards no more writes than there are inputs plus flushes already waiting. |
| SinkGate.RunAsWritten | src/restartable.js:178 | As written, the last-sink buffer keeps its value through any inputs. |
| SinkGate.RunRestored | src/restartable.js:178 | With the commented-out feed line restored, the gate forwards no more writes than there are inputs plus flushes already waiting. |
| SinkGate.RunAppend | src/restartable.js:157-176 | The gate over two input segments is the second segment run from where the first ended. |
| SinkGate.Writes | src/restartable.js:168 | A burst of application writes, as gate inputs, one per write. |
| SinkGate.NoWritesWhileReplaying | src/restartable.js:167-172 | With pausing on and `replaying` set, no input before `onPostReplay` forwards a write, and the flag stays set. |
| SinkGate.ArmsWhileReplaying | src/restartable.js:157-164 | While replaying with the last-sink option, every driver call with a sink arms one more flush, and none is spent before `onPostReplay`. |
| SinkGate.ReplayFlushes | src/restartable.js:161-230 | With pausing on, a replay burst ended by `onPostReplay` forwards nothing during the burst. At its end the buffered write is sent once per waiting flush: one per call with a sink during the burst, plus those from before. It clears `replaying`. |
| SinkGate.TwoCallsTwoFlushes | src/restartable.js:157-164 | Two calls with a sink during one replay each get the last write once, so it is forwarded twice. |
| SinkGate.WritesBuffer | src/restartable.js:154-168 | With the corrected feed, which taps the sink after the pause filter and before the `!replaying` filter, the buffer holds the last write that passed the pause filter, whether or not a replay is running. |
| SinkGate.LastSinkFlush | src/restartable.js:161-165 | With `replayOnlyLastSink`, a driver built during replay receives exactly the last write of the burst when replay finishes. A flush already waiting sends the same write once more. |
| SinkGate.AsWrittenBufferUnchanged | src/restartable.js:178 | With the buffer's feed commented out, the buffer never changes. |
| SinkGate.AsWrittenReplayForwardsNothing | src/restartable.js:161-178 | As written, a replay that starts with an empty buffer forwards nothing, even after it finishes. |
| SinkGate.RestoredBufferWhileReplaying | src/restartable.js:167-178 | With line 178 restored, the buffer does not change while replaying, because the filtered sink receives nothing then. |
| SinkGate.RestoredReplayForwardsNothing | src/restartable.js:161-178 | With line 178 restored, a replay that starts with an empty buffer still forwards nothing. |
| SinkGate.StartReplay | src/restartable.js:207-209 | `onPreReplay` followed by more inputs is those inputs run with `replaying` set. |
| SinkGate.CostlySinkScenario | test/node/expensive-drivers-test.js:40-45 | Both options on, writes during a restart: as written, and with line 178 restored, the real driver gets none of them. With the corrected feed it gets exactly the last. |
| SinkGate.OptionsFrom | src/restartable.js:149-151 | `pauseSinksWhileReplaying` is the given value and `true` when absent. `replayOnlyLastSink` holds iff it was given as `true`. |
| SinkGate.DefaultsGate | src/restartable.js:149-151 | With no options, a write passes iff the latest pause value is `true` and no replay is running, and connecting the sink changes nothing. |
| SinkGate.PauseScenario | src/restartable.js:149-150 | A write passes at the initial pause value `true`, and after `false` is emitted the next write is dropped. |
| SourceTree.WrapProp | src/restartable.js:116-122 | A `dispose` key is replaced, a function under a string key is wrapped with the current scope, and anything else is copied unchanged. |
| SourceTree.StreamTestOnlySubscribe | src/restartable.js:100 | The stream test (here and at line 186) looks at `subscribe` alone: no other property changes it, and an object is a stream iff its `subscribe` is a function. |
| SourceTree.WrapSourceAsWritten | src/restartable.js:110-126 | As written, the wrapped object has exactly the source's string keys, each wrapped by `WrapProp`. |
| SourceTree.SymbolKeyDropped | src/restartable.js:113 | A symbol-keyed property is missing from the as-written result. |
| SourceTree.WrapSource | src/restartable.js:110-126 | Over every own key, symbols included: exactly the source's keys, each wrapped by `WrapProp`, and no other key. |
| SourceTree.ClassifyCall | src/restartable.js:91-107 | The wrapper's branches, iff by iff: raw result (name contains `isolate`, or a non-object result), TypeError on `null`, nested wrap with the extended scope, or a recorded leaf under the joined scope. |
| SourceTree.NestedIdentifier | src/restartable.js:92-106 | A leaf reached through a nested accessor is named by both calls' arguments joined with `'/'`. The accessor names take no part. |
| SourceTree.ClassifyRoot | src/restartable.js:184-190 | The driver's result is returned unchanged iff it is `undefined` or `null`, and recorded under `':root'` iff it is a stream. Otherwise its own keys are wrapped. |
| Restartable.RecordAsWritten | src/restartable.js:39-46 | As written, `record` does the lazy insert and then throws a TypeError, so nothing is subscribed or logged. |
| Restartable.RecordObservableSourceAsWritten | src/restartable.js:57-58 | As written, `recordObservableSource` throws a ReferenceError before the registry is touched. |
| Restartable.SelectorDriverAsWritten | src/restartable.js:39-46 | A selector-style driver navigated with `select('snaz')` reaches the recording branch for `'snaz'`, which as written throws. |
| Restartable.RootDriverAsWritten | src/restartable.js:186-187 | A single-stream driver reaches the root branch, which as written throws. |
| Restartable.DeliverAll | src/restartable.js:214-220 | Each registered identifier's channel gains exactly its fired events, in order. Unregistered identifiers are reported in order, and other channels are unchanged. |
| Restartable.WithDriverKeys | src/restartable.js:192-201 | The returned object has the wrapped keys plus `dispose` and `log$`. Its `dispose` wraps the wrapped object's own `dispose` if there is one, and `log$` is the log. |
| Restartable.RestartableDriver.constructor | src/restartable.js:134-155 | The log is empty, the registry is empty, the pause value is `true`, `replaying` is unset, and the options are kept. |
| Restartable.RestartableDriver.Record | src/restartable.js:39-55 | The registry gets an entry only for an absent identifier. The same path yields the same channel, and a subscription feeds it. |
| Restartable.RestartableDriver.RecordObservableSource | src/restartable.js:57-88 | A fresh channel is registered under `':root'` and fed by the driver's stream. |
| Restartable.RestartableDriver.OnSourceEvent | src/restartable.js:46-50 | A live subscription whose latest pause value is `true` appends exactly one entry to the log and sends the event into its channel. Otherwise nothing changes. |
| Restartable.RestartableDriver.DisposeAllStreams | src/restartable.js:11-19 | The registry ends empty, and exactly its channels are added to the disposed set. When `':root'` holds a channel a driver call returned with a sink, disposing it re-enters that call's `dispose` and the sink is disposed once more. |
| Restartable.RestartableDriver.Call | src/restartable.js:157-204 | With a sink while replaying (and `replayOnlyLastSink`), adds one waiting last-sink flush. Then it passes `undefined`/`null` through, records a stream under `':root'` (one new channel and one subscription feeding it), or wraps the keys and adds the final `dispose` and `log$`, leaving channels and subscriptions unchanged. The returned value remembers whether the call got a sink, and a root channel is noted with that flag. Log, disposals and forwarded writes are unchanged. |
| Restartable.RestartableDriver.CallAccessor | src/restartable.js:90-108 | Calling an accessor wrapper returns the raw value, throws on `null`, wraps the nested object with the longer scope, or records the leaf under its joined identifier with one new subscription feeding its channel. Only a recorded leaf changes the registry, channels or subscriptions. |
| Restartable.RestartableDriver.Dispose | src/restartable.js:192-199 | Dispose runs the original `dispose` once when it wraps one, disposes the sink if there is one, then empties the registry and disposes its channels. The sink count grows by one more when `':root'` holds a channel returned with a sink, whose own `dispose` is re-entered (lines 11-19 and 194). A non-function `dispose` throws before anything happens. Log, channels, subscriptions and the gate are unchanged. |
| Restartable.RestartableDriver.OnSinkEvent | src/restartable.js:167-175 | A write is forwarded exactly when the gate's per-event decision says so. |
| Restartable.RestartableDriver.OnPause | src/restartable.js:150 | The latest pause value becomes the emitted value. |
| Restartable.RestartableDriver.OnPreReplay | src/restartable.js:207-209 | Sets `replaying`. |
| Restartable.RestartableDriver.OnPostReplay | src/restartable.js:227-230 | Clears `replaying` and fires `finishedReplay$` once. If a write is buffered, it is forwarded once per waiting flush, and nothing else is forwarded. |
| Restartable.RestartableDriver.ReplayLog | src/restartable.js:211-225 | Every registered identifier's channel gains exactly its snapshot events that pass the cutoff, in fired order. Missing identifiers are reported and skipped. |
| Restartable.RestartableDriver.Dispatch | src/restartable.js:214-220 | Each fired entry is sent into `streams[identifier]` or reported missing, without stopping the rest. |
| Restart.WithTime | src/restart.js:14 | The drivers map always has the time driver. Without a `Time` driver it is added last. |
| Restart.WithTimeReplaces | src/restart.js:14 | An existing `Time` driver is replaced in place, and no other driver changes. |
| Restart.Rewrap | src/restart.js:19-24 | The new driver keeps the name, `replayLog`, `onPostReplay` and `log$`, has no `onPreReplay`, and takes the real time. |
| Restart.RewrapAll | src/restart.js:16-25 | Rewrapping keeps one driver per driver. |
| Restart.RewrapAllKeeps | src/restart.js:16-25 | Each rewrapped driver keeps its name, `replayLog`, `onPostReplay` and `log$` in place, loses `onPreReplay` and takes the real time. |
| Restart.FirstWrap | src/restart.js:99-101 | The first run's driver keeps its name, takes the real time, and has no hook and no `log$`. |
| Restart.FirstWrapAll | src/restart.js:96-102 | The first run's wrapping keeps one driver per driver. |
| Restart.FirstWrapAllKeeps | src/restart.js:96-102 | Each driver of the first run keeps its name in place, takes the real time and carries no hook and no `log$`. |
| Restart.CallbackStart | src/restart.js:42-44 | The `start` method is called, with the new run, iff the callback is an object. Otherwise nothing is called. |
| Restart.CallbackEnd | src/restart.js:71-75 | An object callback has its `stop` called, and a function callback is called. |
| Restart.CanReplay | src/restart.js:48-53 | A driver without `replayLog` never blocks the loop. A driver with it can replay iff the previous run has its source and that source has `log$`. |
| Restart.FirstRunCallback | src/restart.js:114-122 | The first run calls `start` then `stop` on an object callback, or calls a function callback once, and always ends with the callback's end. |
| Restart.ReplayActions | src/restart.js:46-54 | Every replay call uses the previous run's log and the requested cutoff, with at most one per driver. |
| Restart.PreReplayActions | src/restart.js:27-29 | At most one pre-replay call per driver. |
| Restart.PostReplayActions | src/restart.js:63-69 | At most one post-replay call per driver. |
| Restart.RestartHead | src/restart.js:4-44 | The head starts by disposing the previous run and always builds the new run. |
| Restart.Assemble | src/restart.js:46-81 | The head is a prefix of the restart. A restart throws iff the replay loop threw or the virtual run failed, and it keeps the replay loop's failure. A successful restart ends with the resume. |
| Restart.RestartTrace | src/restart.js:4-81 | A restart disposes the previous run first, and it throws whenever the virtual run fails. |
| Restart.PreReplayActionsShape | src/restart.js:27-29 | The first loop calls only pre-replay hooks, and every driver that has one. |
| Restart.PostReplayActionsShape | src/restart.js:63-69 | The post loop calls only post-replay hooks, and every driver that has one. |
| Restart.HeadInPhaseOrder | src/restart.js:5-44 | Dispose, reset, pre-replay hooks, build and start come in that order. |
| Restart.AssembleInPhaseOrder | src/restart.js:46-78 | Replays, post hooks, callback and resume follow the head in that order, and the head is a prefix. |
| Restart.AssembleMembers | src/restart.js:46-78 | A restart contains its head and its replays, and the rest only when it does not throw. |
| Restart.RestartOrder | src/restart.js:4-81 | The previous run is disposed first, and the whole restart never goes back to an earlier phase. |
| Restart.AssembleResets | src/restart.js:46-78 | Nothing after the head resets the isolate. |
| Restart.HeadResets | src/restart.js:5-44 | The head resets the isolate iff it is a function with `reset`. |
| Restart.RestartResetsIsolate | src/restart.js:7-9 | `isolate.reset()` is called iff `isolate` is a function with `reset`. |
| Restart.RestartCallsPreReplay | src/restart.js:16-32 | Every driver's pre-replay hook is called, and the new graph is built. |
| Restart.AssembleReplays | src/restart.js:46-54 | Every replay call in a restart comes from the replay loop. |
| Restart.RestartReplaysPreviousRun | src/restart.js:46-54 | Every replayed log is the replaced run's, with the requested cutoff. |
| Restart.ReplayActionsOutcome | src/restart.js:46-54 | The replay loop throws iff some driver with `replayLog` lacks its previous source or `log$`. Otherwise every such driver's log is replayed. |
| Restart.RestartFailsIff | src/restart.js:46-61 | A restart throws iff a previous source or log is missing or the virtual run reports an error. |
| Restart.AssembleFailureStops | src/restart.js:58-61 | A restart that throws goes no further than the replays. |
| Restart.RestartFailureStops | src/restart.js:58-61 | On a throw there is no post-replay hook, no callback end and no resume. |
| Restart.RestartSuccessCompletes | src/restart.js:63-77 | On success every post-replay hook runs, and the restart ends with the callback and the resume. |
| Restart.HookInputsOfPreReplay | src/restart.js:27-29 | With distinct names, a driver's pre-replay hook is called once if it has one, else never. |
| Restart.HookInputsOfPostReplay | src/restart.js:63-69 | With distinct names, a driver's post-replay hook is called once if it has one, else never. |
| Restart.WithTimeDistinct | src/restart.js:14 | Adding the time driver to drivers without one keeps the names distinct. |
| Restart.AssembleHookInputs | src/restart.js:58-69 | A driver sees the head's hooks and, only on success, the post-replay hooks. |
| Restart.HeadHookInputs | src/restart.js:16-30 | In the head a driver with a pre-replay hook receives exactly that hook. |
| Restart.RestartGateInputs | src/restart.js:16-69 | A restartable driver's gate receives the pre-replay hook, then the post-replay hook only when the restart succeeds. |
| Restart.HookRun | src/restartable.js:207-230 | The pre-replay hook sets `replaying` and the post-replay hook clears it. |
| Restart.RestartGateReplaying | src/restart.js:58-69 | A restartable driver is left replaying after a restart iff the restart threw. |
| Restart.ReplayActionsStops | src/restart.js:50-52 | Once the replay loop throws, later drivers change nothing. |
| Restart.RewrapDrivers | src/restart.js:16-30 | The first loop rewraps every driver to take the real time and drops `onPreReplay`, calling each pre-replay hook in driver order. |
| Restart.ReplayLogs | src/restart.js:46-54 | The replay loop's trace, and it throws iff some driver cannot replay. |
| Restart.PostReplays | src/restart.js:63-69 | The post loop calls each driver's post-replay hook in driver order. |
| Restart.RestartHeadActions | src/restart.js:5-44 | The head is dispose, reset, pre-replay hooks, build and start, with the drivers rewrapped. |
| Restart.RestartActions | src/restart.js:4-81 | The loops of `restart` produce exactly the ordered restart trace, and leave the rewrapped drivers map. |
| Restart.FirstWrapDrivers | src/restart.js:93-102 | The first run's drivers all take the real time and keep no hook. |
| Restart.Rerunner.constructor | src/restart.js:83-87 | A new rerunner has no run, its first call still ahead, and the `isolate` it was given. |
| Restart.Rerunner.Restart | src/restart.js:4-81 | The trace grows by the restart's actions, and the drivers map is rewrapped. Returns the new run's handle, or the failure it threw. |
| Restart.Rerunner.Rerun | src/restart.js:89-129 | The first call builds without replay or hooks and calls back with no error. Later calls restart the stored run. The stored handle is replaced only when the call returns. |

## Left out

- Streams and their operators (`flatten`, `sample`, `remember`, `fold` as an operator, `shamefullySendNext`) are modelled as event sequences and state updates.
- `onDispose` (src/restartable.js:28-37) is modelled by disposing a channel together with its recording subscription.
- Wall-clock timestamps (`new Date()`) are an integer `time` parameter.
- The `@cycle/time` library is not part of this model: `timeDriver`, `_pause`, `_runVirtually`, `_resume`, `_time` and `scheduleAbsolute`. Its scheduler is a stable sort by time.
- `timeToRunTo` (src/restart.js:56), the time real time resumes at, is not modelled.
- The virtual run is taken as synchronous. Its error is a `runFails` parameter. A rethrown error leaves `restart` and the rerunner's handle unchanged.
- Restart.Rerunner.Restart: the new run's sources, and whether each carries `log$`, are a `newSources` parameter, because `setup` and the application are not modelled.
- The stream-of-streams re-logging in `recordObservableSource` (src/restartable.js:63-77) depends on response streams and is left out.
- Restartable.RestartableDriver.RecordObservableSource models the non-stream events of a root channel only.
- Restartable.RestartableDriver.ReplayLog: the registry is read once, when the replay fires, while the source looks up `streams` as each scheduled callback runs. A channel registered or disposed during the replay is not seen.
- Restartable.RestartableDriver.Dispatch: the registry is fixed for the whole dispatch, for the same reason as `ReplayLog`.
- `forwarded` merges the writes handed to every call's filtered sink, and which call's real driver receives a write is not modelled.
- `console.error` output is returned as the list of skipped identifiers, and error events on sinks are not modelled.
- Accessor arguments are strings. JavaScript's `join` of other values is not modelled.
- Restart.RestartGateInputs: it assumes distinct driver names, which holds for object keys, and that no given driver is named `Time`.
- Restart.WithTime: JavaScript's property order for integer-like keys is not modelled. A new key goes last.
- `setup`/`Cycle`, the application's `main` and the real drivers are not modelled beyond the values they return.
- Restartable.RestartableDriver.Dispose: the registry has no key order. When keys visited after `':root'` have already been deleted by the re-entered `dispose`, the outer loop of `disposeAllStreams` reads `undefined` and throws a TypeError after everything is disposed. The model reports success there.
- A value's properties are a single map. Own and inherited properties, and enumerable and non-enumerable ones, are not told apart, so a stream's inherited `subscribe` and inherited accessors that `Object.keys` skips are outside the model.

## Findings

| source | as written | input that shows it | evidently intended | confidence | as-written member | corrected member |
|---|---|---|---|---|---|---|
| src/restartable.js:46 | `record` calls the one-argument `pausable` with two arguments, then `.subscribe` on the returned function, which throws a TypeError after the registry insert | the selector driver navigated with `select('snaz')` | subscribe the driver's stream through the pause filter and log each event | not executed | Restartable.RecordAsWritten | Restartable.RestartableDriver.Record |
| src/restartable.js:58 | `new ReplaySubject(1)` is never imported, so a single-stream driver throws a ReferenceError | any driver whose source is a stream | register a remembering channel under `':root'` | not executed | Restartable.RecordObservableSourceAsWritten | Restartable.RestartableDriver.RecordObservableSource |
| src/restartable.js:178 | the feed into the last-sink buffer is commented out, so a replay with `replayOnlyLastSink` forwards no write | five writes during a restart with both options on | exactly one extra write, the last, which needs the buffer fed before the `!replaying` filter: restoring line 178 alone still forwards nothing (`SinkGate.RestoredReplayForwardsNothing`), so the corrected gate taps the pause-filtered sink instead | not executed | SinkGate.AsWrittenReplayForwardsNothing | SinkGate.LastSinkFlush |
| src/restartable.js:113 | `Object.keys` skips symbol keys, so a symbol-keyed source property is lost | a source `{[sym]: 1}` | every own key is kept | not executed | SourceTree.WrapSourceAsWritten | SourceTree.WrapSource |
