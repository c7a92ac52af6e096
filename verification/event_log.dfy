/**
 * The log of a restartable driver and the pure parts of replay: the fold that
 * accumulates log entries, the cutoff filter applied to a log snapshot, and the
 * virtual scheduler, which fires scheduled entries in time order (a stable sort).
 */
module EventLog {
  import opened Common

  /** One recorded event: what arrived, when, and on which leaf channel. */
  datatype Entry = Entry(event: Payload, time: int, identifier: string)

  /**
   * The value of the remembered log stream after `arrivals` were sent into the
   * entry stream: a fold that starts from `[]` and concatenates each entry.
   */
  function FoldLog(arrivals: seq<Entry>): (r: seq<Entry>)
    ensures |r| == |arrivals|
  {
    if |arrivals| == 0 then []
    else FoldLog(arrivals[..|arrivals| - 1]) + [arrivals[|arrivals| - 1]]
  }

  /** The fold keeps every entry, in arrival order, and adds nothing. */
  lemma {:induction false} FoldLogIsArrivals(arrivals: seq<Entry>)
    ensures FoldLog(arrivals) == arrivals
  {
    if |arrivals| > 0 {
      FoldLogIsArrivals(arrivals[..|arrivals| - 1]);
      assert arrivals[..|arrivals| - 1] + [arrivals[|arrivals| - 1]] == arrivals;
    }
  }

  /** The successive values the remembered log stream emits: the seed, then one per arrival. */
  function Emissions(arrivals: seq<Entry>): (es: seq<seq<Entry>>)
    ensures |es| == |arrivals| + 1
  {
    if |arrivals| == 0 then [[]]
    else Emissions(arrivals[..|arrivals| - 1]) + [FoldLog(arrivals)]
  }

  /**
   * The k-th emission is the first k arrivals: the log starts as `[]`, each
   * arrival appends exactly one entry at the end and leaves earlier entries
   * alone, and a late subscriber (who sees the last emission) sees the whole log.
   */
  lemma {:induction false} EmissionIsPrefix(arrivals: seq<Entry>, k: nat)
    requires k <= |arrivals|
    ensures Emissions(arrivals)[k] == arrivals[..k]
  {
    if |arrivals| > 0 {
      var init := arrivals[..|arrivals| - 1];
      if k < |arrivals| {
        EmissionIsPrefix(init, k);
        assert init[..k] == arrivals[..k];
      } else {
        FoldLogIsArrivals(arrivals);
      }
    }
  }

  /** Consecutive emissions differ by exactly the newly arrived entry. */
  lemma {:induction false} EmissionAppends(arrivals: seq<Entry>, k: nat)
    requires k < |arrivals|
    ensures Emissions(arrivals)[k + 1] == Emissions(arrivals)[k] + [arrivals[k]]
  {
    EmissionIsPrefix(arrivals, k);
    EmissionIsPrefix(arrivals, k + 1);
    assert arrivals[..k + 1] == arrivals[..k] + [arrivals[k]];
  }

  /** An entry is replayed when there is no cutoff or its time is at most the cutoff. */
  predicate Kept(e: Entry, cutoff: Option<int>)
  {
    cutoff.None? || e.time <= cutoff.value
  }

  /** `newLog.filter(event => timeToResetTo === null || event.time <= timeToResetTo)`. */
  function ReplaySchedule(log: seq<Entry>, cutoff: Option<int>): (r: seq<Entry>)
    ensures |r| <= |log|
    ensures forall i :: 0 <= i < |r| ==> r[i] in log && Kept(r[i], cutoff)
  {
    if |log| == 0 then []
    else
      var init := ReplaySchedule(log[..|log| - 1], cutoff);
      if Kept(log[|log| - 1], cutoff) then init + [log[|log| - 1]] else init
  }

  /** Every log entry that passes the cutoff is scheduled. */
  lemma {:induction false} ReplayScheduleComplete(log: seq<Entry>, cutoff: Option<int>, i: nat)
    requires i < |log| && Kept(log[i], cutoff)
    ensures log[i] in ReplaySchedule(log, cutoff)
  {
    if i < |log| - 1 {
      assert log[..|log| - 1][i] == log[i];
      ReplayScheduleComplete(log[..|log| - 1], cutoff, i);
    }
  }

  /** Without a cutoff the whole snapshot is scheduled, in log order. */
  lemma {:induction false} ReplayScheduleAll(log: seq<Entry>)
    ensures ReplaySchedule(log, None) == log
  {
    if |log| > 0 {
      ReplayScheduleAll(log[..|log| - 1]);
      assert log[..|log| - 1] + [log[|log| - 1]] == log;
    }
  }

  /** Entries are in non-decreasing time order. */
  predicate SortedByTime(s: seq<Entry>)
  {
    forall i, j :: 0 <= i < j < |s| ==> s[i].time <= s[j].time
  }

  /**
   * On a time-ordered log (the order in which a clock stamps arrivals) the
   * cutoff keeps exactly a prefix: everything up to the cutoff and nothing after.
   */
  lemma {:induction false} ReplayScheduleIsPrefix(log: seq<Entry>, t: int)
    requires SortedByTime(log)
    ensures var r := ReplaySchedule(log, Some(t));
            r == log[..|r|] && forall i :: |r| <= i < |log| ==> log[i].time > t
  {
    if |log| > 0 {
      var init := log[..|log| - 1];
      var last := log[|log| - 1];
      assert SortedByTime(init);
      ReplayScheduleIsPrefix(init, t);
      var r0 := ReplaySchedule(init, Some(t));
      if last.time <= t {
        assert init + [last] == log;
      } else {
        assert init[..|r0|] == log[..|r0|];
      }
    }
  }

  /** The events routed to `id`, in schedule order. */
  function EventsFor(s: seq<Entry>, id: string): seq<Payload>
  {
    if |s| == 0 then []
    else EventsFor(s[..|s| - 1], id)
         + (if s[|s| - 1].identifier == id then [s[|s| - 1].event] else [])
  }

  /** The identifiers of entries whose channel is not in `registered`, in schedule order. */
  function MissingIn(s: seq<Entry>, registered: set<string>): (r: seq<string>)
    ensures |r| <= |s|
    ensures forall i :: 0 <= i < |r| ==> r[i] !in registered
  {
    if |s| == 0 then []
    else MissingIn(s[..|s| - 1], registered)
         + (if s[|s| - 1].identifier in registered then [] else [s[|s| - 1].identifier])
  }

  /** Every fired entry whose identifier has no channel is reported. */
  lemma {:induction false} MissingInComplete(s: seq<Entry>, registered: set<string>)
    ensures forall i :: 0 <= i < |s| && s[i].identifier !in registered ==> s[i].identifier in MissingIn(s, registered)
  {
    if |s| > 0 {
      var init := s[..|s| - 1];
      MissingInComplete(init, registered);
      forall i | 0 <= i < |s| && s[i].identifier !in registered
        ensures s[i].identifier in MissingIn(s, registered)
      {
        if i < |s| - 1 {
          assert init[i] == s[i];
        }
      }
    }
  }

  /** `EventsFor` distributes over concatenation. */
  lemma {:induction false} EventsForAppend(a: seq<Entry>, b: seq<Entry>, id: string)
    ensures EventsFor(a + b, id) == EventsFor(a, id) + EventsFor(b, id)
  {
    if |b| == 0 {
      assert a + b == a;
    } else {
      assert (a + b)[..|a + b| - 1] == a + b[..|b| - 1];
      EventsForAppend(a, b[..|b| - 1], id);
    }
  }

  /**
   * The schedule routes to an identifier exactly that identifier's logged
   * events with time at most the cutoff, in log order, and all of them when
   * there is no cutoff.
   */
  lemma {:induction false} ScheduleRoutesHistory(log: seq<Entry>, cutoff: Option<int>, id: string)
    ensures EventsFor(ReplaySchedule(log, cutoff), id) == EventsFor(FilterKept(log, cutoff), id)
    ensures cutoff.None? ==> EventsFor(ReplaySchedule(log, cutoff), id) == EventsFor(log, id)
  {
    FilterKeptIsSchedule(log, cutoff);
    if cutoff.None? {
      ReplayScheduleAll(log);
    }
  }

  /** The log restricted to entries that pass the cutoff, as a sequence comprehension-free filter. */
  function FilterKept(log: seq<Entry>, cutoff: Option<int>): (r: seq<Entry>)
    ensures |r| <= |log|
    ensures forall i :: 0 <= i < |r| ==> Kept(r[i], cutoff)
  {
    if |log| == 0 then []
    else if Kept(log[0], cutoff) then [log[0]] + FilterKept(log[1..], cutoff)
    else FilterKept(log[1..], cutoff)
  }

  /** Filtering from the front and from the back agree. */
  lemma {:induction false} FilterKeptIsSchedule(log: seq<Entry>, cutoff: Option<int>)
    ensures FilterKept(log, cutoff) == ReplaySchedule(log, cutoff)
  {
    if |log| > 0 {
      FilterKeptIsSchedule(log[1..], cutoff);
      if |log| == 1 {
      } else {
        FilterKeptIsSchedule(log[..|log| - 1], cutoff);
        FilterKeptSnoc(log[..|log| - 1], log[|log| - 1], cutoff);
        assert log[..|log| - 1] + [log[|log| - 1]] == log;
      }
    }
  }

  lemma {:induction false} FilterKeptSnoc(s: seq<Entry>, e: Entry, cutoff: Option<int>)
    ensures FilterKept(s + [e], cutoff)
            == FilterKept(s, cutoff) + (if Kept(e, cutoff) then [e] else [])
  {
    if |s| == 0 {
      assert s + [e] == [e];
      assert [e][1..] == [];
    } else {
      assert (s + [e])[1..] == s[1..] + [e];
      FilterKeptSnoc(s[1..], e, cutoff);
    }
  }

  /**
   * Insert `e` behind every entry whose time is at most `e.time`: the virtual
   * scheduler fires entries scheduled for the same time in scheduling order.
   */
  function Insert(e: Entry, s: seq<Entry>): (r: seq<Entry>)
    ensures |r| == |s| + 1
    ensures multiset(r) == multiset(s) + multiset{e}
  {
    if |s| == 0 then [e]
    else if s[|s| - 1].time <= e.time then s + [e]
    else
      assert s == s[..|s| - 1] + [s[|s| - 1]];
      Insert(e, s[..|s| - 1]) + [s[|s| - 1]]
  }

  /** The order in which the virtual scheduler fires the scheduled entries. */
  function SortByTime(s: seq<Entry>): (r: seq<Entry>)
    ensures multiset(r) == multiset(s)
  {
    if |s| == 0 then []
    else
      assert s == s[..|s| - 1] + [s[|s| - 1]];
      Insert(s[|s| - 1], SortByTime(s[..|s| - 1]))
  }

  /** Inserting never lifts the latest time above a bound every entry meets. */
  lemma InsertBounded(e: Entry, s: seq<Entry>, bound: int)
    requires e.time <= bound
    requires forall k :: 0 <= k < |s| ==> s[k].time <= bound
    ensures forall x :: x in Insert(e, s) ==> x.time <= bound
  {
    var r := Insert(e, s);
    forall x | x in r ensures x.time <= bound {
      assert x in multiset(r);
      if x != e {
        assert x in multiset(s);
        var k :| 0 <= k < |s| && s[k] == x;
      }
    }
  }

  lemma {:induction false} InsertSorted(e: Entry, s: seq<Entry>)
    requires SortedByTime(s)
    ensures SortedByTime(Insert(e, s))
  {
    if |s| > 0 && s[|s| - 1].time > e.time {
      var init := s[..|s| - 1];
      assert SortedByTime(init);
      InsertSorted(e, init);
      var r := Insert(e, init);
      forall k | 0 <= k < |init| ensures init[k].time <= s[|s| - 1].time {
        assert init[k] == s[k];
      }
      InsertBounded(e, init, s[|s| - 1].time);
      var full := r + [s[|s| - 1]];
      assert Insert(e, s) == full;
      forall i, j | 0 <= i < j < |full| ensures full[i].time <= full[j].time {
        if j == |r| {
          assert r[i] in r;
        }
      }
    }
  }

  /** The scheduler fires entries in non-decreasing time order, each exactly once. */
  lemma {:induction false} SortByTimeSorted(s: seq<Entry>)
    ensures SortedByTime(SortByTime(s)) && multiset(SortByTime(s)) == multiset(s)
  {
    if |s| > 0 {
      SortByTimeSorted(s[..|s| - 1]);
      InsertSorted(s[|s| - 1], SortByTime(s[..|s| - 1]));
    }
  }

  /** A time-ordered schedule is fired exactly in scheduling (log) order. */
  lemma {:induction false} SortByTimeKeepsSorted(s: seq<Entry>)
    requires SortedByTime(s)
    ensures SortByTime(s) == s
  {
    if |s| > 0 {
      var init := s[..|s| - 1];
      assert SortedByTime(init);
      SortByTimeKeepsSorted(init);
      if |init| > 0 {
        assert init[|init| - 1].time <= s[|s| - 1].time;
      }
      assert init + [s[|s| - 1]] == s;
    }
  }

  /** Filtering a time-ordered log keeps it time-ordered. */
  lemma {:induction false} ReplayScheduleSorted(log: seq<Entry>, cutoff: Option<int>)
    requires SortedByTime(log)
    ensures SortedByTime(ReplaySchedule(log, cutoff))
  {
    if |log| > 0 {
      var init := log[..|log| - 1];
      assert SortedByTime(init);
      ReplayScheduleSorted(init, cutoff);
      var r := ReplaySchedule(init, cutoff);
      if Kept(log[|log| - 1], cutoff) {
        forall i | 0 <= i < |r| ensures r[i].time <= log[|log| - 1].time {
          assert r[i] in init;
        }
      }
    }
  }

  /**
   * What replay delivers on a time-ordered log: the fired order is the filtered
   * snapshot itself, so each identifier receives its history up to the cutoff.
   */
  lemma FiredOrder(log: seq<Entry>, cutoff: Option<int>)
    requires SortedByTime(log)
    ensures SortByTime(ReplaySchedule(log, cutoff)) == ReplaySchedule(log, cutoff)
  {
    ReplayScheduleSorted(log, cutoff);
    SortByTimeKeepsSorted(ReplaySchedule(log, cutoff));
  }

  /**
   * Replay reproduces history: on a time-ordered log, the events the
   * scheduler fires into an identifier's channel are that identifier's
   * logged events with time at most the cutoff, in log order, and all of
   * them when there is no cutoff.
   */
  lemma ReplayRoutesHistory(log: seq<Entry>, cutoff: Option<int>, id: string)
    requires SortedByTime(log)
    ensures EventsFor(SortByTime(ReplaySchedule(log, cutoff)), id) == EventsFor(FilterKept(log, cutoff), id)
    ensures cutoff.None? ==> EventsFor(SortByTime(ReplaySchedule(log, cutoff)), id) == EventsFor(log, id)
  {
    FiredOrder(log, cutoff);
    ScheduleRoutesHistory(log, cutoff, id);
  }

  /** The entries of `s` stamped exactly `t`, in order. */
  function AtTime(s: seq<Entry>, t: int): seq<Entry>
  {
    if |s| == 0 then []
    else AtTime(s[..|s| - 1], t) + (if s[|s| - 1].time == t then [s[|s| - 1]] else [])
  }

  lemma AtTimeSnoc(s: seq<Entry>, x: Entry, t: int)
    ensures AtTime(s + [x], t) == AtTime(s, t) + (if x.time == t then [x] else [])
  {
    assert (s + [x])[..|s|] == s;
  }

  /** Inserting puts the new entry after every entry with the same time. */
  lemma {:induction false} InsertStable(e: Entry, s: seq<Entry>, t: int)
    ensures AtTime(Insert(e, s), t) == AtTime(s, t) + (if e.time == t then [e] else [])
  {
    if |s| == 0 {
      AtTimeSnoc([], e, t);
      assert [] + [e] == [e];
    } else if s[|s| - 1].time <= e.time {
      AtTimeSnoc(s, e, t);
    } else {
      var init := s[..|s| - 1];
      var last := s[|s| - 1];
      assert s == init + [last];
      assert Insert(e, s) == Insert(e, init) + [last];
      InsertStable(e, init, t);
      AtTimeSnoc(Insert(e, init), last, t);
      AtTimeSnoc(init, last, t);
      // `last` is later than `e`, so at most one of the two is stamped `t`
      if e.time == t {
        assert last.time != t;
      }
    }
  }

  /**
   * The scheduler is stable: entries with equal times fire in the order
   * they were scheduled.
   */
  lemma {:induction false} SortByTimeStable(s: seq<Entry>, t: int)
    ensures AtTime(SortByTime(s), t) == AtTime(s, t)
  {
    if |s| > 0 {
      SortByTimeStable(s[..|s| - 1], t);
      InsertStable(s[|s| - 1], SortByTime(s[..|s| - 1]), t);
    }
  }
}
