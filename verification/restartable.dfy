/**
 * One instance of `restartable(driver, opts)`: the log it accumulates, the
 * channel registry (`streams`) it fills lazily and clears on dispose, the
 * recording subscriptions, and the closure state of its sink gate. Channels
 * are identified by their index in `channels`, which holds every event sent
 * into each channel so far.
 */
module Restartable {
  import opened Common
  import opened Identifier
  import opened EventLog
  import opened SinkGate
  import opened SourceTree

  /** A recording subscription: a driver stream feeding the channel `channel` registered as `identifier`. */
  datatype Subscription = Subscription(identifier: string, channel: nat)

  /** What the instrumented driver call hands back. */
  datatype DriverSource =
    | Passed(value: Returned)                     // `undefined`/`null`, unchanged
    | RootChannel(channel: nat, sink: bool)                   // a single recorded channel (with `dispose` and `log$`)
    | WrappedTree(props: map<Key, WrappedProp>, sink: bool)   // a wrapped source object
    // `sink`: whether the call received `sink$`, which the returned `dispose` also disposes

  /** What calling an accessor wrapper returns. */
  datatype AccessorResult =
    | Raw(value: Returned)
    | AccessorTypeError
    | Nested(props: map<Key, WrappedProp>)
    | Leaf(channel: nat)

  /** Exceptions the as-written code raises. */
  datatype Thrown = TypeError | ReferenceError

  /** The registry and channel count when an as-written recording function throws. */
  datatype AsWrittenOutcome = AsWrittenOutcome(streams: map<string, nat>, channelCount: nat, thrown: Thrown)

  /**
   * `record` as written: the lazy insert happens, then `pausable(streamToRecord, pause$)`
   * ignores its second argument and returns pausable's inner function, whose
   * `.subscribe` is undefined, so calling it throws. No subscription exists and
   * nothing is ever logged for the leaf.
   */
  function RecordAsWritten(streams: map<string, nat>, channelCount: nat, identifier: string): (r: AsWrittenOutcome)
    ensures r.thrown == TypeError
    ensures r.streams.Keys == streams.Keys + {identifier}
    ensures identifier in streams ==> r.streams == streams && r.channelCount == channelCount
    ensures identifier !in streams ==> r.streams[identifier] == channelCount && r.channelCount == channelCount + 1
  {
    if identifier in streams then AsWrittenOutcome(streams, channelCount, TypeError)
    else AsWrittenOutcome(streams[identifier := channelCount], channelCount + 1, TypeError)
  }

  /**
   * `recordObservableSource` as written: `new ReplaySubject(1)` names an
   * identifier that is never imported, so it throws before the registry is touched.
   */
  function RecordObservableSourceAsWritten(streams: map<string, nat>, channelCount: nat): (r: AsWrittenOutcome)
    ensures r.thrown == ReferenceError && r.streams == streams && r.channelCount == channelCount
    ensures RootIdentifier in r.streams <==> RootIdentifier in streams
  {
    AsWrittenOutcome(streams, channelCount, ReferenceError)
  }

  /**
   * The selector-style driver `{select: (foo) => stream}` navigated with
   * `select('snaz')`: the wrapper takes the recording branch for identifier
   * `'snaz'`, and as written that branch throws instead of logging.
   */
  lemma SelectorDriverAsWritten(stream: map<Key, Prop>)
    requires IsStream(stream)
    ensures ClassifyCall("select", [], ["snaz"], Object(stream)) == RecordLeaf("snaz")
    ensures RecordAsWritten(map[], 0, "snaz").thrown == TypeError
  {
    assert !Contains("select", "isolate") by {
      ContainsIff("select", "isolate");
    }
  }

  /** A driver that returns a single stream takes the root branch, which as written throws. */
  lemma RootDriverAsWritten(stream: map<Key, Prop>)
    requires IsStream(stream)
    ensures ClassifyRoot(Object(stream)).SingleChannel?
    ensures RecordObservableSourceAsWritten(map[], 0).thrown == ReferenceError
  {
  }

  /** Deleting one key removes at most its value from the map's values. */
  lemma ValuesAfterRemove(m: map<string, nat>, key: string)
    requires key in m
    ensures m.Values == (m - {key}).Values + {m[key]}
  {
    forall v | v in m.Values ensures v in (m - {key}).Values + {m[key]} {
      var k :| k in m && m[k] == v;
      if k != key { assert (m - {key})[k] == v; }
    }
  }

  /** A registry maps distinct identifiers to distinct channels. */
  predicate Injective(streams: map<string, nat>)
  {
    forall id1, id2 :: id1 in streams && id2 in streams && id1 != id2 ==> streams[id1] != streams[id2]
  }

  /** Delivering one more event to its registered channel extends exactly that identifier's history. */
  lemma DeliverStep(channels: seq<seq<Payload>>, delivered: seq<seq<Payload>>, streams: map<string, nat>,
                    prefix: seq<Entry>, e: Entry)
    requires Injective(streams) && e.identifier in streams
    requires |delivered| == |channels|
    requires forall id :: id in streams ==> streams[id] < |channels|
    requires forall id :: id in streams ==> delivered[streams[id]] == channels[streams[id]] + EventsFor(prefix, id)
    ensures var ch := streams[e.identifier];
            var next := delivered[ch := delivered[ch] + [e.event]];
            forall id :: id in streams ==> next[streams[id]] == channels[streams[id]] + EventsFor(prefix + [e], id)
  {
    var ch := streams[e.identifier];
    var next := delivered[ch := delivered[ch] + [e.event]];
    assert (prefix + [e])[..|prefix|] == prefix;
    forall id | id in streams
      ensures next[streams[id]] == channels[streams[id]] + EventsFor(prefix + [e], id)
    {
      if id != e.identifier {
        assert streams[id] != ch;
      }
    }
  }

  /**
   * The dispatch loop of a replay on plain values: each fired entry goes to
   * its identifier's channel, or its identifier is reported missing.
   */
  method DeliverAll(channels: seq<seq<Payload>>, streams: map<string, nat>, fired: seq<Entry>)
    returns (delivered: seq<seq<Payload>>, missing: seq<string>)
    requires Injective(streams)
    requires forall id :: id in streams ==> streams[id] < |channels|
    ensures missing == MissingIn(fired, streams.Keys)
    ensures |delivered| == |channels|
    ensures forall id :: id in streams ==> delivered[streams[id]] == channels[streams[id]] + EventsFor(fired, id)
    ensures forall c :: 0 <= c < |channels| && c !in streams.Values ==> delivered[c] == channels[c]
  {
    delivered := channels;
    missing := [];
    var i := 0;
    while i < |fired|
      invariant 0 <= i <= |fired|
      invariant |delivered| == |channels|
      invariant missing == MissingIn(fired[..i], streams.Keys)
      invariant forall id :: id in streams ==> delivered[streams[id]] == channels[streams[id]] + EventsFor(fired[..i], id)
      invariant forall c :: 0 <= c < |delivered| && c !in streams.Values ==> delivered[c] == channels[c]
    {
      var e := fired[i];
      assert fired[..i + 1] == fired[..i] + [e];
      if e.identifier in streams {
        DeliverStep(channels, delivered, streams, fired[..i], e);
        delivered := delivered[streams[e.identifier] := delivered[streams[e.identifier]] + [e.event]];
      } else {
        missing := missing + [e.identifier];
      }
      i := i + 1;
    }
    assert fired[..|fired|] == fired;
  }

  /** Values of a map whose entries are all below `n` are below `n`. */
  lemma ValuesBounded(m: map<string, nat>, n: nat)
    requires forall id :: id in m ==> m[id] < n
    ensures forall c :: c in m.Values ==> c < n
  {
    forall c | c in m.Values ensures c < n {
      var k :| k in m && m[k] == c;
    }
  }

  /** The wrapped source object with the driver-level `dispose` and `log$` put over it. */
  function WithDriverKeys(wrapped: map<Key, WrappedProp>): (r: map<Key, WrappedProp>)
    ensures r.Keys == wrapped.Keys + {DisposeKey, LogKey}
    ensures r[LogKey] == LogView
    ensures r[DisposeKey] == FinalDispose(if DisposeKey in wrapped then Some(wrapped[DisposeKey]) else None)
    ensures forall k :: k in wrapped && k != DisposeKey && k != LogKey ==> r[k] == wrapped[k]
  {
    var inner := if DisposeKey in wrapped then Some(wrapped[DisposeKey]) else None;
    wrapped[DisposeKey := FinalDispose(inner)][LogKey := LogView]
  }

  /**
   * The extra sink disposals one `disposeAllStreams` causes: the registry
   * value under `':root'`, when a driver call returned it, has that call's
   * driver-level `dispose`, which runs again and disposes that call's sink.
   * The inner `disposeAllStreams` it starts finds the keys already visited
   * deleted, and the rest are disposed either way.
   */
  function RootReentry(streams: map<string, nat>, rootSinks: map<nat, bool>): nat
  {
    if RootIdentifier in streams && streams[RootIdentifier] in rootSinks && rootSinks[streams[RootIdentifier]] then 1 else 0
  }

  class RestartableDriver {
    const opts: Options
    /** The log: every recorded entry, in arrival order. */
    var log: seq<Entry>
    /** The channel registry: identifier to channel. */
    var streams: map<string, nat>
    /** Every channel created so far, indexed by channel id: the events sent into it. */
    var channels: seq<seq<Payload>>
    /** Channels whose `dispose` has run (which also disposes their recording subscriptions). */
    var disposed: set<nat>
    var subscriptions: seq<Subscription>
    /** The closure state of the sink gate (`pause$`, `replaying`, last-sink buffer). */
    var gate: GateState
    /** Writes handed to the real driver. */
    var forwarded: seq<Payload>
    /** How often `finishedReplay$` fired. */
    var finishedReplays: nat
    /**
     * For each channel a driver call returned as its single stream: whether
     * that call received a sink. The channel object is the call's result, so
     * its `dispose` is the call's driver-level `dispose`.
     */
    var rootSinks: map<nat, bool>
    var sinkDisposals: nat
    /** Calls of the real driver's own `dispose`. */
    var originalDisposals: nat

    /** Registry entries are live, distinct channels; every id refers to a created channel. */
    ghost predicate Valid()
      reads this
    {
      && (forall id :: id in streams ==> streams[id] < |channels| && streams[id] !in disposed)
      && Injective(streams)
      && (forall c :: c in disposed ==> c < |channels|)
      && (forall i :: 0 <= i < |subscriptions| ==> subscriptions[i].channel < |channels|)
    }

    /** `restartable(driver, opts)`: an empty log and registry, the gate in its initial state. */
    constructor (opts: Options)
      ensures Valid() && this.opts == opts
      ensures log == [] && streams == map[] && channels == [] && disposed == {} && subscriptions == []
      ensures gate == Initial && forwarded == [] && finishedReplays == 0
      ensures rootSinks == map[] && sinkDisposals == 0 && originalDisposals == 0
    {
      this.opts := opts;
      log := [];
      streams := map[];
      channels := [];
      disposed := {};
      subscriptions := [];
      gate := Initial;
      forwarded := [];
      finishedReplays := 0;
      rootSinks := map[];
      sinkDisposals := 0;
      originalDisposals := 0;
    }

    /**
     * `record`: create the registry entry only when the identifier is absent,
     * then subscribe the driver's stream to it. Navigating the same path again
     * yields the same channel and no second entry.
     */
    method Record(identifier: string) returns (ch: nat)
      requires Valid()
      modifies this
      ensures Valid()
      ensures identifier in old(streams) ==> ch == old(streams)[identifier] && streams == old(streams) && channels == old(channels)
      ensures identifier !in old(streams) ==> ch == |old(channels)| && streams == old(streams)[identifier := ch] && channels == old(channels) + [[]]
      ensures identifier in streams && streams[identifier] == ch
      ensures subscriptions == old(subscriptions) + [Subscription(identifier, ch)]
      ensures log == old(log) && disposed == old(disposed) && gate == old(gate) && forwarded == old(forwarded)
      ensures finishedReplays == old(finishedReplays) && rootSinks == old(rootSinks)
      ensures sinkDisposals == old(sinkDisposals) && originalDisposals == old(originalDisposals)
    {
      if identifier !in streams {
        streams := streams[identifier := |channels|];
        channels := channels + [[]];
      }
      ch := streams[identifier];
      subscriptions := subscriptions + [Subscription(identifier, ch)];
    }

    /** `recordObservableSource`: a fresh channel registered under `':root'`, fed by the driver's stream. */
    method RecordObservableSource() returns (ch: nat)
      requires Valid()
      modifies this
      ensures Valid()
      ensures ch == |old(channels)| && channels == old(channels) + [[]]
      ensures streams == old(streams)[RootIdentifier := ch]
      ensures subscriptions == old(subscriptions) + [Subscription(RootIdentifier, ch)]
      ensures log == old(log) && disposed == old(disposed) && gate == old(gate) && forwarded == old(forwarded)
      ensures finishedReplays == old(finishedReplays) && rootSinks == old(rootSinks)
      ensures sinkDisposals == old(sinkDisposals) && originalDisposals == old(originalDisposals)
    {
      ch := |channels|;
      channels := channels + [[]];
      streams := streams[RootIdentifier := ch];
      subscriptions := subscriptions + [Subscription(RootIdentifier, ch)];
    }

    /**
     * The stream behind subscription `i` emits `event` at `time`. While the
     * subscription is live and the latest pause value is `true`, exactly one
     * entry is appended to the log and the event is sent into the channel.
     */
    method OnSourceEvent(i: nat, event: Payload, time: int)
      requires Valid() && i < |subscriptions|
      modifies this
      ensures Valid()
      ensures var sub := old(subscriptions)[i];
              var passes := sub.channel !in old(disposed) && old(gate).latestPause;
              && log == old(log) + (if passes then [Entry(event, time, sub.identifier)] else [])
              && channels == (if passes then old(channels)[sub.channel := old(channels)[sub.channel] + [event]] else old(channels))
      ensures streams == old(streams) && disposed == old(disposed) && subscriptions == old(subscriptions)
      ensures gate == old(gate) && forwarded == old(forwarded) && finishedReplays == old(finishedReplays)
      ensures rootSinks == old(rootSinks) && sinkDisposals == old(sinkDisposals) && originalDisposals == old(originalDisposals)
    {
      var sub := subscriptions[i];
      if sub.channel !in disposed && gate.latestPause {
        log := log + [Entry(event, time, sub.identifier)];
        channels := channels[sub.channel := channels[sub.channel] + [event]];
      }
    }

    /** `disposeAllStreams`: delete every registry entry and dispose its channel. */
    method DisposeAllStreams()
      requires Valid()
      modifies this
      ensures Valid()
      ensures streams == map[] && disposed == old(disposed) + old(streams).Values
      ensures sinkDisposals == old(sinkDisposals) + RootReentry(old(streams), rootSinks)
      ensures log == old(log) && channels == old(channels) && subscriptions == old(subscriptions)
      ensures gate == old(gate) && forwarded == old(forwarded) && finishedReplays == old(finishedReplays)
      ensures rootSinks == old(rootSinks) && originalDisposals == old(originalDisposals)
    {
      var remaining := streams;
      var done := disposed;
      while remaining != map[]
        invariant forall id :: id in remaining ==> id in streams && remaining[id] == streams[id]
        invariant done + remaining.Values == disposed + streams.Values
        modifies {}
        decreases remaining.Keys
      {
        var key :| key in remaining;
        var value := remaining[key];
        var rest := remaining - {key};
        ValuesAfterRemove(remaining, key);
        remaining := rest;
        done := done + {value};
      }
      assert remaining.Values == {};
      ValuesBounded(streams, |channels|);
      // deleting `':root'` and then calling its `dispose` re-enters the driver-level
      // `dispose` of the call that returned it, which disposes that call's sink again
      sinkDisposals := sinkDisposals + RootReentry(streams, rootSinks);
      streams := remaining;
      disposed := done;
    }

    /**
     * The driver call `restartableDriver(sink$)`: arm the last-sink flush when
     * built during a replay, call the real driver (whose return value is
     * `output`), and record or wrap what it returned.
     */
    method Call(hasSink: bool, output: Returned) returns (src: DriverSource)
      requires Valid()
      modifies this
      ensures Valid()
      ensures gate == (if hasSink then Step(opts, old(gate), Connect).state else old(gate))
      ensures ClassifyRoot(output).PassThrough? ==> src == Passed(output) && streams == old(streams)
      ensures ClassifyRoot(output).SingleChannel? ==>
                && src == RootChannel(|old(channels)|, hasSink) && streams == old(streams)[RootIdentifier := src.channel]
                && rootSinks == old(rootSinks)[src.channel := hasSink]
      ensures !ClassifyRoot(output).SingleChannel? ==> rootSinks == old(rootSinks)
      ensures ClassifyRoot(output).Tree? ==>
                && src.WrappedTree? && src.sink == hasSink
                && src.props.Keys == ClassifyRoot(output).props.Keys + {DisposeKey, LogKey}
                && src.props[LogKey] == LogView
                && src.props[DisposeKey] == FinalDispose(
                     if DisposeKey in ClassifyRoot(output).props
                     then Some(DisposeWrapper(ClassifyRoot(output).props[DisposeKey])) else None)
                && (forall k :: k in ClassifyRoot(output).props && k != DisposeKey && k != LogKey ==>
                      src.props[k] == WrapProp(k, ClassifyRoot(output).props[k], []))
                && streams == old(streams)
      ensures ClassifyRoot(output).SingleChannel? ==>
                && channels == old(channels) + [[]]
                && subscriptions == old(subscriptions) + [Subscription(RootIdentifier, src.channel)]
      ensures !ClassifyRoot(output).SingleChannel? ==> channels == old(channels) && subscriptions == old(subscriptions)
      ensures log == old(log) && disposed == old(disposed) && forwarded == old(forwarded)
      ensures finishedReplays == old(finishedReplays) && sinkDisposals == old(sinkDisposals) && originalDisposals == old(originalDisposals)
    {
      if hasSink {
        gate := Step(opts, gate, Connect).state;
      }
      var kind := ClassifyRoot(output);
      match kind
      case PassThrough =>
        src := Passed(output);
      case SingleChannel =>
        var ch := RecordObservableSource();
        rootSinks := rootSinks[ch := hasSink];
        src := RootChannel(ch, hasSink);
      case Tree(props) =>
        var wrapped := WrapSource(props, []);
        src := WrappedTree(WithDriverKeys(wrapped), hasSink);
    }

    /**
     * Calling an accessor wrapper with `args`, when the wrapped accessor
     * returns `returned`: pass it through, wrap it with the extended scope, or
     * record it under the joined scope.
     */
    method CallAccessor(w: WrappedProp, args: seq<string>, returned: Returned) returns (res: AccessorResult)
      requires Valid() && w.AccessorWrapper?
      modifies this
      ensures Valid()
      ensures var kind := ClassifyCall(w.name, w.scope, args, returned);
              && (kind.ReturnRaw? ==> res == Raw(returned) && streams == old(streams))
              && (kind.NullTypeError? ==> res == AccessorTypeError && streams == old(streams))
              && (kind.WrapNested? ==>
                    (&& res.Nested? && streams == old(streams)
                     && res.props.Keys == returned.props.Keys
                     && forall k :: k in res.props ==> res.props[k] == WrapProp(k, returned.props[k], w.scope + args)))
              && (kind.RecordLeaf? ==>
                    (&& res.Leaf? && kind.identifier in streams && streams[kind.identifier] == res.channel
                     && (kind.identifier in old(streams) ==> streams == old(streams))
                     && (kind.identifier !in old(streams) ==> streams == old(streams)[kind.identifier := res.channel])))
      ensures var kind := ClassifyCall(w.name, w.scope, args, returned);
              && (kind.RecordLeaf? ==>
                    && subscriptions == old(subscriptions) + [Subscription(kind.identifier, res.channel)]
                    && channels == (if kind.identifier in old(streams) then old(channels) else old(channels) + [[]]))
              && (!kind.RecordLeaf? ==> channels == old(channels) && subscriptions == old(subscriptions))
      ensures log == old(log) && disposed == old(disposed) && gate == old(gate) && forwarded == old(forwarded)
      ensures finishedReplays == old(finishedReplays) && rootSinks == old(rootSinks)
      ensures sinkDisposals == old(sinkDisposals) && originalDisposals == old(originalDisposals)
    {
      var kind := ClassifyCall(w.name, w.scope, args, returned);
      match kind
      case ReturnRaw =>
        res := Raw(returned);
      case NullTypeError =>
        res := AccessorTypeError;
      case WrapNested(scope) =>
        var nested := WrapSource(returned.props, scope);
        res := Nested(nested);
      case RecordLeaf(identifier) =>
        var ch := Record(identifier);
        res := Leaf(ch);
    }

    /**
     * The `dispose` of the instrumented source: the inner dispose (a single
     * channel's own, or the wrapped original's), the sink's, then every
     * registry channel. A non-function `dispose` property throws before
     * anything is disposed.
     */
    method Dispose(src: DriverSource) returns (ok: bool)
      requires Valid()
      requires src.RootChannel? ==> src.channel < |channels|
      requires src.WrappedTree? ==> DisposeKey in src.props && src.props[DisposeKey].FinalDispose?
      requires !src.Passed?
      modifies this
      ensures Valid()
      ensures var throws := src.WrappedTree? && src.props[DisposeKey].inner.Some?
                            && src.props[DisposeKey].inner.value.DisposeWrapper?
                            && src.props[DisposeKey].inner.value.original.Value?;
              ok == !throws
      ensures ok ==> streams == map[]
      ensures ok && src.RootChannel? ==> disposed == old(disposed) + old(streams).Values + {src.channel}
      ensures ok && src.WrappedTree? ==> disposed == old(disposed) + old(streams).Values
      ensures ok ==> sinkDisposals == old(sinkDisposals) + (if src.sink then 1 else 0) + RootReentry(old(streams), rootSinks)
      ensures !ok ==> streams == old(streams) && disposed == old(disposed) && sinkDisposals == old(sinkDisposals)
      ensures var wrapsOriginal := src.WrappedTree? && src.props[DisposeKey].inner.Some?
                                   && src.props[DisposeKey].inner.value.DisposeWrapper?;
              originalDisposals == old(originalDisposals) + (if ok && wrapsOriginal then 1 else 0)
      ensures log == old(log) && channels == old(channels) && gate == old(gate) && forwarded == old(forwarded)
      ensures subscriptions == old(subscriptions) && finishedReplays == old(finishedReplays) && rootSinks == old(rootSinks)
    {
      ok := true;
      match src {
        case RootChannel(ch, _) =>
        case WrappedTree(props, _) =>
          var inner := props[DisposeKey].inner;
          if inner.Some? && inner.value.DisposeWrapper? {
            if inner.value.original.Value? {
              ok := false;
              return;
            }
            // `makeDispose`: the original dispose, then every registry channel
            originalDisposals := originalDisposals + 1;
            DisposeAllStreams();
          }
      }
      if src.sink {
        sinkDisposals := sinkDisposals + 1;
      }
      DisposeAllStreams();
      if src.RootChannel? {
        // the single channel's own dispose also disposes its recording subscription;
        // adding it last keeps the registry live while its channels are disposed
        disposed := disposed + {src.channel};
      }
    }

    /** A write from the application's sink stream meets the gate. */
    method OnSinkEvent(event: Payload)
      modifies this`gate, this`forwarded
      ensures gate == Step(opts, old(gate), Write(event)).state
      ensures forwarded == old(forwarded) + (if Forwards(opts, old(gate).latestPause, old(gate).replaying) then [event] else [])
    {
      var r := Step(opts, gate, Write(event));
      gate := r.state;
      forwarded := forwarded + r.out;
    }

    /** The `pause$` option emits. */
    method OnPause(paused: bool)
      modifies this`gate
      ensures gate == old(gate).(latestPause := paused)
    {
      gate := Step(opts, gate, PauseValue(paused)).state;
    }

    /** `onPreReplay`: set `replaying`. */
    method OnPreReplay()
      modifies this`gate
      ensures gate == old(gate).(replaying := true)
    {
      gate := Step(opts, gate, PreReplay).state;
    }

    /**
     * `onPostReplay`: clear `replaying` and fire `finishedReplay$`, which
     * sends the buffered last write once through every waiting flush.
     */
    method OnPostReplay()
      modifies this`gate, this`forwarded, this`finishedReplays
      ensures !gate.replaying && finishedReplays == old(finishedReplays) + 1
      ensures gate == Step(opts, old(gate), PostReplay).state
      ensures forwarded == old(forwarded) + Step(opts, old(gate), PostReplay).out
      ensures |forwarded| == |old(forwarded)| + (if old(gate).lastSink.Some? then old(gate).armed else 0)
      ensures forall i :: |old(forwarded)| <= i < |forwarded| ==> old(gate).lastSink == Some(forwarded[i])
    {
      var r := Step(opts, gate, PostReplay);
      gate := r.state;
      forwarded := forwarded + r.out;
      finishedReplays := finishedReplays + 1;
    }

    /**
     * `replayLog` followed by the virtual run for this instance: take the
     * snapshot `newLog`, keep the entries that pass the cutoff, fire them in
     * time order and send each into the channel registered under its
     * identifier. Identifiers with no channel are reported, in order, and
     * skipped. Replayed events go into channels directly and are not logged again.
     */
    method ReplayLog(newLog: seq<Entry>, cutoff: Option<int>) returns (missing: seq<string>)
      requires Valid()
      modifies this`channels
      ensures Valid()
      ensures var fired := SortByTime(ReplaySchedule(newLog, cutoff));
              && missing == MissingIn(fired, streams.Keys)
              && |channels| == |old(channels)|
              && (forall id :: id in streams ==> channels[streams[id]] == old(channels)[streams[id]] + EventsFor(fired, id))
              && (forall c :: 0 <= c < |channels| && c !in streams.Values ==> channels[c] == old(channels)[c])
    {
      missing := Dispatch(SortByTime(ReplaySchedule(newLog, cutoff)));
    }

    /**
     * The scheduled callbacks, fired in order: each entry goes into
     * `streams[identifier]`; a missing identifier is reported and skipped
     * without stopping the rest.
     */
    method Dispatch(fired: seq<Entry>) returns (missing: seq<string>)
      requires Valid()
      modifies this`channels
      ensures Valid()
      ensures missing == MissingIn(fired, streams.Keys)
      ensures |channels| == |old(channels)|
      ensures forall id :: id in streams ==> channels[streams[id]] == old(channels)[streams[id]] + EventsFor(fired, id)
      ensures forall c :: 0 <= c < |channels| && c !in streams.Values ==> channels[c] == old(channels)[c]
    {
      var delivered;
      delivered, missing := DeliverAll(channels, streams, fired);
      channels := delivered;
    }
  }
}
