/**
 * The sink gate of one restartable driver instance: which application writes
 * reach the real driver, given the latest pause value, the `replaying` flag,
 * the options, and the last-sink buffer that is flushed when replay finishes.
 * The gate is a pure state machine over the inputs it observes.
 */
module SinkGate {
  import opened Common

  /** `{pauseSinksWhileReplaying, replayOnlyLastSink}` after defaulting. */
  datatype Options = Options(pauseSinksWhileReplaying: bool, replayOnlyLastSink: bool)

  /**
   * Defaulting the options: `pauseSinksWhileReplaying` is `true` unless
   * given, and `replayOnlyLastSink` is `false` unless given as `true`.
   */
  function OptionsFrom(pauseSinks: Option<bool>, lastSinkOnly: Option<bool>): (o: Options)
    ensures pauseSinks.Some? ==> o.pauseSinksWhileReplaying == pauseSinks.value
    ensures pauseSinks.None? ==> o.pauseSinksWhileReplaying
    ensures o.replayOnlyLastSink <==> lastSinkOnly == Some(true)
  {
    Options(if pauseSinks.None? then true else pauseSinks.value,
            if lastSinkOnly.Some? then lastSinkOnly.value else false)
  }

  /** The options of `restartable(driver)` called without `opts`. */
  const Defaults: Options := OptionsFrom(None, None)

  /**
   * The per-instance closure state the gate reads and updates: the latest
   * pause value, the `replaying` flag, how many last-sink flushes are waiting
   * for `finishedReplay$` (one per driver call that got a sink while
   * replaying), and the last-sink buffer.
   */
  datatype GateState = GateState(latestPause: bool, replaying: bool, armed: nat, lastSink: Option<Payload>)

  /** The state at construction: the pause stream starts with `true`; `replaying` is unset (falsy). */
  const Initial: GateState := GateState(true, false, 0, None)

  /** What the gate observes. */
  datatype GateInput =
    | Write(event: Payload)     // the application's sink stream emits
    | PauseValue(paused: bool)  // the `pause$` option emits
    | Connect                   // the driver is called with a sink stream
    | PreReplay                 // `onPreReplay()`
    | PostReplay                // `onPostReplay()`

  /** `n` copies of `v`. */
  function Copies(v: Payload, n: nat): (r: seq<Payload>)
    ensures |r| == n
    ensures forall i :: 0 <= i < n ==> r[i] == v
  {
    if n == 0 then [] else Copies(v, n - 1) + [v]
  }

  /** The number of driver calls with a sink among `inputs`. */
  function Connects(inputs: seq<GateInput>): (n: nat)
    ensures n <= |inputs|
  {
    if |inputs| == 0 then 0
    else (if inputs[0].Connect? then 1 else 0) + Connects(inputs[1..])
  }

  /** The state after an input and the writes handed to the real driver. */
  datatype StepResult = StepResult(state: GateState, out: seq<Payload>)

  /** The per-event decision: does a sink event reach the real driver right now? */
  function Forwards(opts: Options, latestPause: bool, replaying: bool): (pass: bool)
    ensures opts.pauseSinksWhileReplaying ==> (pass <==> latestPause && !replaying)
    ensures !opts.pauseSinksWhileReplaying ==> (pass <==> latestPause)
  {
    // `pausable(pause$)` keeps an event while the latest pause value is `true`
    var open := latestPause;
    if opts.pauseSinksWhileReplaying then open && !replaying else open
  }

  /**
   * What feeds the last-sink buffer.
   * `Unfed`: nothing, because the feed line is commented out (as written).
   * `FilteredSink`: that line restored, so the buffer takes what reaches the
   * filtered sink, which is exactly the forwarded writes.
   * `PauseFiltered`: every write that passes the pause filter, before the
   * `!replaying` filter. This is the feed the last-sink option needs, since
   * the filtered sink receives nothing while replaying.
   */
  datatype Feed = Unfed | FilteredSink | PauseFiltered

  /** One input, with the last-sink buffer fed by `feed`. */
  function StepFeeding(opts: Options, st: GateState, input: GateInput, feed: Feed): (r: StepResult)
    ensures !input.PostReplay? ==> |r.out| <= 1
    ensures |r.out| + r.state.armed <= st.armed + (if input.PostReplay? then 0 else 1)
    ensures input.Connect? ==> r.state.armed == st.armed + (if st.replaying && opts.replayOnlyLastSink then 1 else 0)
    ensures input.Write? ==> (r.out == [input.event] <==> Forwards(opts, st.latestPause, st.replaying))
    ensures input.Write? && !Forwards(opts, st.latestPause, st.replaying) ==> r.out == []
    ensures input.PreReplay? ==> r.state.replaying && r.out == []
    ensures input.PostReplay? ==> !r.state.replaying
    ensures !input.Write? && !input.PostReplay? ==> r.out == []
  {
    match input
    case Write(ev) =>
      var pass := Forwards(opts, st.latestPause, st.replaying);
      var buffered := match feed
        case Unfed => st.lastSink
        case FilteredSink => if pass then Some(ev) else st.lastSink
        case PauseFiltered => if st.latestPause then Some(ev) else st.lastSink;
      StepResult(st.(lastSink := buffered), if pass then [ev] else [])
    case PauseValue(b) =>
      StepResult(st.(latestPause := b), [])
    case Connect =>
      // each such call subscribes its own `sample(finishedReplay$).take(1)`
      StepResult(st.(armed := st.armed + (if st.replaying && opts.replayOnlyLastSink then 1 else 0)), [])
    case PreReplay =>
      StepResult(st.(replaying := true), [])
    case PostReplay =>
      // `finishedReplay$` fires after the flag is cleared; every waiting
      // subscription samples the buffer once, into its own filtered sink
      if st.lastSink.Some? then
        StepResult(st.(replaying := false, armed := 0), Copies(st.lastSink.value, st.armed))
      else
        // with nothing buffered `sample` emits nothing, and every `take(1)` keeps waiting
        StepResult(st.(replaying := false), [])
  }

  /** One input of the corrected gate: the buffer takes every write that passes the pause filter. */
  function Step(opts: Options, st: GateState, input: GateInput): (r: StepResult)
    ensures !input.PostReplay? ==> |r.out| <= 1
    ensures input.PostReplay? ==> |r.out| <= st.armed
    ensures input.Write? && st.latestPause ==> r.state.lastSink == Some(input.event)
  {
    StepFeeding(opts, st, input, PauseFiltered)
  }

  /**
   * A sequence of inputs. Every forwarded write is paid for by an input or by
   * a flush already waiting: a write forwards at most once, a call arms at
   * most one flush, and `onPostReplay` spends the flushes it sends.
   */
  function RunFeeding(opts: Options, st: GateState, inputs: seq<GateInput>, feed: Feed): (r: StepResult)
    ensures |r.out| + r.state.armed <= |inputs| + st.armed
    decreases |inputs|
  {
    if |inputs| == 0 then StepResult(st, [])
    else
      var first := StepFeeding(opts, st, inputs[0], feed);
      var rest := RunFeeding(opts, first.state, inputs[1..], feed);
      StepResult(rest.state, first.out + rest.out)
  }

  /** The corrected gate. */
  function Run(opts: Options, st: GateState, inputs: seq<GateInput>): (r: StepResult)
    ensures |r.out| <= |inputs| + st.armed
  {
    RunFeeding(opts, st, inputs, PauseFiltered)
  }

  /** The gate as written: the last-sink buffer is never fed, so it keeps its value. */
  function RunAsWritten(opts: Options, st: GateState, inputs: seq<GateInput>): (r: StepResult)
    ensures r.state.lastSink == st.lastSink
  {
    AsWrittenBufferUnchanged(opts, st, inputs);
    RunFeeding(opts, st, inputs, Unfed)
  }

  /** The gate with the commented-out feed line restored: the buffer takes the forwarded writes. */
  function RunRestored(opts: Options, st: GateState, inputs: seq<GateInput>): (r: StepResult)
    ensures |r.out| <= |inputs| + st.armed
  {
    RunFeeding(opts, st, inputs, FilteredSink)
  }

  /** A run over two segments is the second run started where the first ended. */
  lemma {:induction false} RunAppend(opts: Options, st: GateState, a: seq<GateInput>, b: seq<GateInput>, feed: Feed)
    ensures var ra := RunFeeding(opts, st, a, feed);
            var rb := RunFeeding(opts, ra.state, b, feed);
            RunFeeding(opts, st, a + b, feed) == StepResult(rb.state, ra.out + rb.out)
    decreases |a|
  {
    if |a| == 0 {
      assert a + b == b;
    } else {
      assert (a + b)[0] == a[0];
      assert (a + b)[1..] == a[1..] + b;
      var first := StepFeeding(opts, st, a[0], feed);
      RunAppend(opts, first.state, a[1..], b, feed);
      var ra' := RunFeeding(opts, first.state, a[1..], feed);
      var rb := RunFeeding(opts, ra'.state, b, feed);
      assert first.out + (ra'.out + rb.out) == (first.out + ra'.out) + rb.out;
    }
  }

  /** The writes of `ws` as gate inputs. */
  function Writes(ws: seq<Payload>): (r: seq<GateInput>)
    ensures |r| == |ws|
    ensures forall i :: 0 <= i < |r| ==> r[i] == Write(ws[i])
  {
    if |ws| == 0 then [] else [Write(ws[0])] + Writes(ws[1..])
  }

  /**
   * With `pauseSinksWhileReplaying`, nothing reaches the real driver while
   * replaying: until `onPostReplay` no input forwards a write, and the flag stays set.
   */
  lemma {:induction false} NoWritesWhileReplaying(opts: Options, st: GateState, inputs: seq<GateInput>, feed: Feed)
    requires opts.pauseSinksWhileReplaying && st.replaying
    requires forall i :: 0 <= i < |inputs| ==> !inputs[i].PostReplay?
    ensures RunFeeding(opts, st, inputs, feed).out == []
    ensures RunFeeding(opts, st, inputs, feed).state.replaying
    decreases |inputs|
  {
    if |inputs| > 0 {
      NoWritesWhileReplaying(opts, StepFeeding(opts, st, inputs[0], feed).state, inputs[1..], feed);
    }
  }

  /**
   * While replaying, every driver call with a sink arms one more flush when
   * the last-sink option is on, and nothing before `onPostReplay` spends one.
   */
  lemma {:induction false} ArmsWhileReplaying(opts: Options, st: GateState, inputs: seq<GateInput>, feed: Feed)
    requires st.replaying
    requires forall i :: 0 <= i < |inputs| ==> !inputs[i].PostReplay?
    ensures RunFeeding(opts, st, inputs, feed).state.armed
            == st.armed + (if opts.replayOnlyLastSink then Connects(inputs) else 0)
    ensures RunFeeding(opts, st, inputs, feed).state.replaying
    decreases |inputs|
  {
    if |inputs| > 0 {
      var next := StepFeeding(opts, st, inputs[0], feed).state;
      assert next.replaying;
      assert next.armed == st.armed + (if opts.replayOnlyLastSink && inputs[0].Connect? then 1 else 0);
      ArmsWhileReplaying(opts, next, inputs[1..], feed);
    }
  }

  /**
   * A replay burst ended by `onPostReplay`, pausing on: the real driver gets
   * nothing during the burst and, at its end, one copy of the buffered write
   * per waiting flush: one per call made with a sink while replaying (with
   * the last-sink option), plus those still waiting from before.
   */
  lemma ReplayFlushes(opts: Options, st: GateState, inputs: seq<GateInput>)
    requires opts.pauseSinksWhileReplaying && st.replaying
    requires forall i :: 0 <= i < |inputs| ==> !inputs[i].PostReplay?
    ensures var r := Run(opts, st, inputs + [PostReplay]);
            var buffered := Run(opts, st, inputs).state.lastSink;
            var waiting := st.armed + (if opts.replayOnlyLastSink then Connects(inputs) else 0);
            && r.out == (if buffered.Some? then Copies(buffered.value, waiting) else [])
            && |r.out| <= waiting
            && !r.state.replaying && (buffered.Some? ==> r.state.armed == 0)
  {
    RunAppend(opts, st, inputs, [PostReplay], PauseFiltered);
    NoWritesWhileReplaying(opts, st, inputs, PauseFiltered);
    ArmsWhileReplaying(opts, st, inputs, PauseFiltered);
    assert [PostReplay][1..] == [];
  }

  /**
   * Two driver calls with a sink during one replay: both wait on the buffer,
   * and the last write reaches the real driver once through each call.
   */
  lemma TwoCallsTwoFlushes()
    ensures Run(Options(true, true), GateState(true, true, 0, None), [Connect, Connect, Write(5), PostReplay]).out == [5, 5]
  {
  }

  /**
   * In the corrected gate, writes move the buffer to the last one that
   * passed the pause filter, whether or not a replay is running. This feed
   * taps the sink before the `!replaying` filter; restoring the commented-out
   * line instead would tap it after, and would buffer nothing during a
   * replay (`RestoredBufferWhileReplaying`).
   */
  lemma {:induction false} WritesBuffer(opts: Options, st: GateState, ws: seq<Payload>)
    requires st.latestPause
    ensures var r := Run(opts, st, Writes(ws));
            r.state == st.(lastSink := if |ws| == 0 then st.lastSink else Some(ws[|ws| - 1]))
    decreases |ws|
  {
    if |ws| > 0 {
      assert Writes(ws)[1..] == Writes(ws[1..]);
      WritesBuffer(opts, st.(lastSink := Some(ws[0])), ws[1..]);
    }
  }

  /**
   * The last-sink guarantee: a driver built while replaying that sees a burst
   * of writes receives, when replay finishes, exactly the last of them; any
   * flush already waiting sends that same write once more.
   */
  lemma LastSinkFlush(opts: Options, st: GateState, ws: seq<Payload>)
    requires opts.pauseSinksWhileReplaying && opts.replayOnlyLastSink
    requires st.replaying && st.latestPause && |ws| > 0
    ensures Run(opts, st, [Connect] + Writes(ws) + [PostReplay]).out == Copies(ws[|ws| - 1], st.armed + 1)
  {
    var feed := PauseFiltered;
    var last := ws[|ws| - 1];
    var armedSt := st.(armed := st.armed + 1);
    var connect := RunFeeding(opts, st, [Connect], feed);
    assert [Connect][1..] == [];
    assert connect == StepResult(armedSt, []);
    RunAppend(opts, st, [Connect], Writes(ws), feed);
    WritesBuffer(opts, armedSt, ws);
    NoWritesWhileReplaying(opts, armedSt, Writes(ws), feed);
    var burst := RunFeeding(opts, armedSt, Writes(ws), feed);
    assert burst.out == [] && burst.state == armedSt.(lastSink := Some(last));
    RunAppend(opts, st, [Connect] + Writes(ws), [PostReplay], feed);
    var flush := RunFeeding(opts, burst.state, [PostReplay], feed);
    assert [PostReplay][1..] == [];
    assert flush.out == Copies(last, st.armed + 1);
  }

  /** Without its feed the buffer never changes, whatever the inputs. */
  lemma {:induction false} AsWrittenBufferUnchanged(opts: Options, st: GateState, inputs: seq<GateInput>)
    ensures RunFeeding(opts, st, inputs, Unfed).state.lastSink == st.lastSink
    decreases |inputs|
  {
    if |inputs| > 0 {
      AsWrittenBufferUnchanged(opts, StepFeeding(opts, st, inputs[0], Unfed).state, inputs[1..]);
    }
  }

  /** Without a value in the buffer, as written, a replay forwards nothing at all. */
  lemma AsWrittenReplayForwardsNothing(opts: Options, st: GateState, inputs: seq<GateInput>)
    requires opts.pauseSinksWhileReplaying && st.replaying && st.lastSink.None?
    requires forall i :: 0 <= i < |inputs| ==> !inputs[i].PostReplay?
    ensures RunAsWritten(opts, st, inputs + [PostReplay]).out == []
  {
    RunAppend(opts, st, inputs, [PostReplay], Unfed);
    NoWritesWhileReplaying(opts, st, inputs, Unfed);
    AsWrittenBufferUnchanged(opts, st, inputs);
  }

  /**
   * With the feed line restored and pausing on, the buffer changes only on
   * forwarded writes, and none is forwarded while replaying.
   */
  lemma {:induction false} RestoredBufferWhileReplaying(opts: Options, st: GateState, inputs: seq<GateInput>)
    requires opts.pauseSinksWhileReplaying && st.replaying
    requires forall i :: 0 <= i < |inputs| ==> !inputs[i].PostReplay?
    ensures RunFeeding(opts, st, inputs, FilteredSink).state.lastSink == st.lastSink
    decreases |inputs|
  {
    if |inputs| > 0 {
      var next := StepFeeding(opts, st, inputs[0], FilteredSink).state;
      assert next.lastSink == st.lastSink && next.replaying;
      RestoredBufferWhileReplaying(opts, next, inputs[1..]);
    }
  }

  /** With the feed line restored, a replay that starts with an empty buffer still forwards nothing. */
  lemma RestoredReplayForwardsNothing(opts: Options, st: GateState, inputs: seq<GateInput>)
    requires opts.pauseSinksWhileReplaying && st.replaying && st.lastSink.None?
    requires forall i :: 0 <= i < |inputs| ==> !inputs[i].PostReplay?
    ensures RunRestored(opts, st, inputs + [PostReplay]).out == []
  {
    RunAppend(opts, st, inputs, [PostReplay], FilteredSink);
    NoWritesWhileReplaying(opts, st, inputs, FilteredSink);
    RestoredBufferWhileReplaying(opts, st, inputs);
  }

  /** `onPreReplay` followed by the rest of a burst is the rest run with the flag set. */
  lemma StartReplay(opts: Options, st: GateState, rest: seq<GateInput>, feed: Feed)
    ensures RunFeeding(opts, st, [PreReplay] + rest, feed) == RunFeeding(opts, st.(replaying := true), rest, feed)
  {
    RunAppend(opts, st, [PreReplay], rest, feed);
  }

  /** A restart burst: replay starts, a driver is built, the application writes, replay ends. */
  function Burst(ws: seq<Payload>): seq<GateInput>
  {
    [PreReplay, Connect] + Writes(ws) + [PostReplay]
  }

  /**
   * The costly-sink scenario: writes during a restart's replay with both
   * options on. The gate as written forwards none of them, and neither does
   * the gate with the commented-out feed line restored, since that feed sees
   * nothing while replaying. With the buffer fed before the `!replaying`
   * filter the gate forwards one of them, the last.
   */
  lemma CostlySinkScenario(st: GateState, ws: seq<Payload>)
    requires st.latestPause && st.armed == 0 && st.lastSink.None? && |ws| > 0
    ensures RunAsWritten(Options(true, true), st, Burst(ws)).out == []
    ensures RunRestored(Options(true, true), st, Burst(ws)).out == []
    ensures Run(Options(true, true), st, Burst(ws)).out == [ws[|ws| - 1]]
  {
    var opts := Options(true, true);
    var replayingSt := st.(replaying := true);
    var middle := [Connect] + Writes(ws);
    assert Burst(ws) == [PreReplay] + (middle + [PostReplay]);
    StartReplay(opts, st, middle + [PostReplay], Unfed);
    StartReplay(opts, st, middle + [PostReplay], FilteredSink);
    StartReplay(opts, st, middle + [PostReplay], PauseFiltered);
    forall i | 0 <= i < |middle| ensures !middle[i].PostReplay? {
      if i > 0 { assert middle[i] == Writes(ws)[i - 1]; }
    }
    AsWrittenReplayForwardsNothing(opts, replayingSt, middle);
    RestoredReplayForwardsNothing(opts, replayingSt, middle);
    LastSinkFlush(opts, replayingSt, ws);
    assert Copies(ws[|ws| - 1], 1) == [ws[|ws| - 1]];
  }

  /**
   * Pausing sinks: with the pause value `true` a write passes; after `false`
   * is emitted the next write is dropped.
   */
  lemma PauseScenario()
    ensures Run(Defaults, Initial, [Connect, Write(7), PauseValue(false), Write(8)]).out == [7]
  {
  }

  /**
   * Without options, writes pass iff the pause value is `true` and no replay
   * is running, and connecting a sink never arms the last-sink flush.
   */
  lemma DefaultsGate(st: GateState, latestPause: bool, replaying: bool)
    ensures Forwards(Defaults, latestPause, replaying) <==> latestPause && !replaying
    ensures Step(Defaults, st, Connect).state == st
  {
  }
}
