/**
 Peak parallelism read off node timestamps: a sweep over sorted start and end events equals the greatest number of
 closed intervals that share an instant.
 */
module Overlaps {
  import opened Outcomes
  import opened Sorting

  /** The two timestamps of one node state, in whole microseconds; a node that never started or finished lacks one. */
  datatype NodeTimes = NodeTimes(started: Option<int>, completed: Option<int>)

  datatype Edge = Start | End
  datatype Event = Event(time: int, edge: Edge)

  predicate Timed(n: NodeTimes) {
    n.started.Some? && n.completed.Some?
  }

  /** A node that finishes no earlier than it starts. */
  predicate WellTimed(n: NodeTimes) {
    Timed(n) ==> n.started.value <= n.completed.value
  }

  /** The closed interval from start to completion contains `t`. */
  predicate RunsAt(n: NodeTimes, t: int) {
    Timed(n) && n.started.value <= t <= n.completed.value
  }

  /** How many nodes run at `t`. */
  function Running(nodes: seq<NodeTimes>, t: int): nat {
    if nodes == [] then 0
    else Running(nodes[..|nodes| - 1], t) + if RunsAt(nodes[|nodes| - 1], t) then 1 else 0
  }

  function EventsOf(n: NodeTimes): seq<Event> {
    if Timed(n) then [Event(n.started.value, Start), Event(n.completed.value, End)] else []
  }

  function Events(nodes: seq<NodeTimes>): seq<Event> {
    if nodes == [] then [] else Events(nodes[..|nodes| - 1]) + EventsOf(nodes[|nodes| - 1])
  }

  function Delta(e: Event): int {
    if e.edge.Start? then 1 else -1
  }

  /** The sort key `(time, -delta)`: by time, starts ahead of ends on a tie. */
  predicate Before(a: Event, b: Event) {
    a.time < b.time || (a.time == b.time && (a.edge.Start? || b.edge.End?))
  }

  function Max(a: int, b: int): int {
    if a < b then b else a
  }

  /** The greatest total of deltas over the prefixes of `s`, the empty one included. */
  function HighWater(s: seq<Event>): (h: nat) {
    if s == [] then 0 else Max(0, Delta(s[0]) + HighWater(s[1..]))
  }

  /** The events a closed interval has met by instant `t`: starts up to and including it, ends strictly before it. */
  predicate Reached(e: Event, t: int) {
    if e.edge.Start? then e.time <= t else e.time < t
  }

  /** Total of the deltas reached by `t`; it does not depend on the order of the events. */
  function Level(s: seq<Event>, t: int): int {
    if s == [] then 0 else (if Reached(s[0], t) then Delta(s[0]) else 0) + Level(s[1..], t)
  }

  lemma {:induction false} LevelConcat(a: seq<Event>, b: seq<Event>, t: int)
    ensures Level(a + b, t) == Level(a, t) + Level(b, t)
  {
    if a == [] {
      assert a + b == b;
    } else {
      assert (a + b)[1..] == a[1..] + b;
      LevelConcat(a[1..], b, t);
    }
  }

  lemma {:induction false} LevelOfInsert(x: Event, s: seq<Event>, t: int)
    ensures Level(Insert(Before, x, s), t) == (if Reached(x, t) then Delta(x) else 0) + Level(s, t)
  {
    if s != [] && !Before(x, s[0]) {
      LevelOfInsert(x, s[1..], t);
    }
  }

  lemma {:induction false} SortingKeepsLevel(s: seq<Event>, t: int)
    ensures Level(Sort(Before, s), t) == Level(s, t)
  {
    if s != [] {
      SortingKeepsLevel(s[1..], t);
      LevelOfInsert(s[0], Sort(Before, s[1..]), t);
    }
  }

  /** For nodes that finish no earlier than they start, the level at `t` counts the closed intervals around `t`. */
  lemma {:induction false} LevelCountsRunning(nodes: seq<NodeTimes>, t: int)
    requires forall n :: n in nodes ==> WellTimed(n)
    ensures Level(Events(nodes), t) == Running(nodes, t)
  {
    if nodes != [] {
      var init, n := nodes[..|nodes| - 1], nodes[|nodes| - 1];
      assert forall m :: m in init ==> m in nodes;
      assert n in nodes;
      LevelCountsRunning(init, t);
      LevelConcat(Events(init), EventsOf(n), t);
      if Timed(n) {
        assert EventsOf(n)[1..] == [Event(n.completed.value, End)];
        assert Level(EventsOf(n)[1..], t) == if n.completed.value < t then -1 else 0;
      }
    }
  }

  /** In sorted order the events reached by an instant come first. */
  lemma {:induction false} NothingReachedLater(s: seq<Event>, t: int)
    requires Sorted(Before, s) && s != [] && !Reached(s[0], t)
    ensures Level(s, t) == 0
  {
    if |s| > 1 {
      assert Before(s[0], s[1]);
      NothingReachedLater(s[1..], t);
    }
  }

  /** The sweep never stays below the level of any instant. */
  lemma {:induction false} SweepCoversLevel(s: seq<Event>, t: int)
    requires Sorted(Before, s)
    ensures Level(s, t) <= HighWater(s)
  {
    if s != [] {
      if Reached(s[0], t) {
        SweepCoversLevel(s[1..], t);
      } else {
        NothingReachedLater(s, t);
      }
    }
  }

  /** At the time of a sorted list's first event only further starts can be reached, so the level is not negative. */
  lemma {:induction false} FirstInstantLevel(s: seq<Event>, t: int)
    requires Sorted(Before, s)
    requires s != [] ==> t <= s[0].time
    ensures Level(s, t) >= 0
  {
    if s != [] {
      if |s| > 1 {
        assert Before(s[0], s[1]);
      }
      FirstInstantLevel(s[1..], t);
    }
  }

  /** A positive peak of the sweep is the level of some instant at which a node starts. */
  lemma {:induction false} SweepIsAttained(s: seq<Event>) returns (t: int)
    requires Sorted(Before, s)
    requires HighWater(s) > 0
    ensures Level(s, t) == HighWater(s) && Event(t, Start) in s
  {
    if HighWater(s[1..]) > 0 {
      t := SweepIsAttained(s[1..]);
      if !Reached(s[0], t) {
        assert Before(s[0], s[1]);
        NothingReachedLater(s[1..], t);
        assert false;
      }
    } else {
      t := s[0].time;
      if |s| > 1 {
        assert Before(s[0], s[1]);
      }
      FirstInstantLevel(s[1..], t);
      SweepCoversLevel(s, t);
    }
  }

  lemma BeforeIsTotal()
    ensures TotalPreorder(Before)
  {
  }

  /** The value the judge reports. */
  function Overlap(nodes: seq<NodeTimes>): int {
    Max(HighWater(Sort(Before, Events(nodes))), 1)
  }

  /** `peak` is the larger of one and the greatest number of closed intervals sharing an instant. */
  ghost predicate IsPeak(nodes: seq<NodeTimes>, peak: int) {
    && peak >= 1
    && (forall t :: Running(nodes, t) <= peak)
    && (peak == 1 || exists t :: Running(nodes, t) == peak)
  }

  lemma OverlapIsPeak(nodes: seq<NodeTimes>)
    requires forall n :: n in nodes ==> WellTimed(n)
    ensures IsPeak(nodes, Overlap(nodes))
  {
    var sorted := Sort(Before, Events(nodes));
    BeforeIsTotal();
    SortSorts(Before, Events(nodes));
    forall t ensures Running(nodes, t) == Level(sorted, t) && Running(nodes, t) <= Overlap(nodes) {
      LevelCountsRunning(nodes, t);
      SortingKeepsLevel(Events(nodes), t);
      SweepCoversLevel(sorted, t);
    }
    if HighWater(sorted) > 1 {
      var t := SweepIsAttained(sorted);
      assert Running(nodes, t) == Overlap(nodes);
    }
  }

  /** A set of intervals has one peak, so the number above leaves the judge no freedom. */
  lemma PeakIsUnique(nodes: seq<NodeTimes>, a: int, b: int)
    requires IsPeak(nodes, a) && IsPeak(nodes, b)
    ensures a == b
  {
  }

  // ---------------------------------------------------------------- closed and half-open intervals

  /** The half-open interval, without the instant of completion, contains `t`. */
  predicate RunsHalfOpenAt(n: NodeTimes, t: int) {
    Timed(n) && n.started.value <= t < n.completed.value
  }

  function HalfOpen(nodes: seq<NodeTimes>, t: int): nat {
    if nodes == [] then 0
    else HalfOpen(nodes[..|nodes| - 1], t) + if RunsHalfOpenAt(nodes[|nodes| - 1], t) then 1 else 0
  }

  predicate CompletesAt(n: NodeTimes, t: int) {
    Timed(n) && n.completed.value == t
  }

  /** The documented number: the larger of one and the greatest number of half-open intervals sharing an instant. */
  ghost predicate IsHalfOpenPeak(nodes: seq<NodeTimes>, peak: int) {
    && peak >= 1
    && (forall t :: HalfOpen(nodes, t) <= peak)
    && (peak == 1 || exists t :: HalfOpen(nodes, t) == peak)
  }

  /** The two counts differ at an instant exactly when a node completes there. */
  lemma {:induction false} CountsCompared(nodes: seq<NodeTimes>, t: int)
    requires forall n :: n in nodes ==> WellTimed(n)
    ensures HalfOpen(nodes, t) <= Running(nodes, t)
    ensures HalfOpen(nodes, t) == Running(nodes, t) <==> forall n :: n in nodes ==> !CompletesAt(n, t)
  {
    if nodes != [] {
      var init, last := nodes[..|nodes| - 1], nodes[|nodes| - 1];
      assert nodes == init + [last];
      assert last in nodes;
      CountsCompared(init, t);
    }
  }

  ghost predicate PeaksClearly(nodes: seq<NodeTimes>, t: int) {
    Running(nodes, t) == Overlap(nodes) && forall n :: n in nodes ==> !CompletesAt(n, t)
  }

  /**
   The result is the documented half-open number exactly when it is one, or is reached at some instant at which no
   node completes.
   */
  lemma HalfOpenAgreesIff(nodes: seq<NodeTimes>)
    requires forall n :: n in nodes ==> WellTimed(n)
    ensures IsHalfOpenPeak(nodes, Overlap(nodes)) <==> Overlap(nodes) == 1 || exists t :: PeaksClearly(nodes, t)
  {
    OverlapIsPeak(nodes);
    var peak := Overlap(nodes);
    forall t ensures HalfOpen(nodes, t) <= Running(nodes, t) <= peak
      && (HalfOpen(nodes, t) == Running(nodes, t) <==> forall n :: n in nodes ==> !CompletesAt(n, t))
    {
      CountsCompared(nodes, t);
    }
    if t :| HalfOpen(nodes, t) == peak {
      assert PeaksClearly(nodes, t);
    }
    if t :| PeaksClearly(nodes, t) {
      assert HalfOpen(nodes, t) == peak;
    }
  }

  lemma {:induction false} StartOfSomeNode(nodes: seq<NodeTimes>, t: int)
    requires Event(t, Start) in Events(nodes)
    ensures exists n :: n in nodes && Timed(n) && n.started.value == t
  {
    if nodes != [] {
      var init, last := nodes[..|nodes| - 1], nodes[|nodes| - 1];
      assert nodes == init + [last] && last in nodes;
      if Event(t, Start) in Events(init) {
        StartOfSomeNode(init, t);
      }
    }
  }

  /** In particular when no node completes at the very instant at which one starts. */
  lemma HalfOpenAgreesWithoutTies(nodes: seq<NodeTimes>)
    requires forall n :: n in nodes ==> WellTimed(n)
    requires forall m, n :: m in nodes && n in nodes && Timed(m) ==> !CompletesAt(n, m.started.value)
    ensures IsHalfOpenPeak(nodes, Overlap(nodes))
  {
    var events, sorted := Events(nodes), Sort(Before, Events(nodes));
    BeforeIsTotal();
    SortSorts(Before, events);
    if HighWater(sorted) > 1 {
      var t := SweepIsAttained(sorted);
      assert Event(t, Start) in multiset(sorted);
      assert Event(t, Start) in events;
      StartOfSomeNode(nodes, t);
      LevelCountsRunning(nodes, t);
      SortingKeepsLevel(events, t);
      assert PeaksClearly(nodes, t);
    }
    HalfOpenAgreesIff(nodes);
  }

  /** They can differ: two intervals that only touch overlap, though no instant lies in both half-open intervals. */
  lemma TouchingIntervalsOverlap(a: int, b: int, c: int)
    requires a < b < c
    ensures var nodes := [NodeTimes(Some(a), Some(b)), NodeTimes(Some(b), Some(c))];
            Overlap(nodes) == 2 && IsHalfOpenPeak(nodes, 1)
  {
    var first, second := NodeTimes(Some(a), Some(b)), NodeTimes(Some(b), Some(c));
    var nodes := [first, second];
    OverlapIsPeak(nodes);
    assert nodes[..1] == [first] && [first][..0] == [];
    assert forall t :: Running(nodes, t) == Running([first], t) + if RunsAt(second, t) then 1 else 0;
    assert forall t :: Running([first], t) == if RunsAt(first, t) then 1 else 0;
    assert Running(nodes, b) == 2;
    assert forall t :: HalfOpen(nodes, t) == HalfOpen([first], t) + if RunsHalfOpenAt(second, t) then 1 else 0;
    assert forall t :: HalfOpen([first], t) == if RunsHalfOpenAt(first, t) then 1 else 0;
  }

  lemma EventsGrow(nodes: seq<NodeTimes>, i: nat)
    requires i < |nodes|
    ensures Events(nodes[..i + 1]) == Events(nodes[..i]) + EventsOf(nodes[i])
  {
    assert nodes[..i + 1][..i] == nodes[..i];
  }

  lemma HighWaterStep(s: seq<Event>, i: nat)
    requires i < |s|
    ensures HighWater(s[i..]) == Max(0, Delta(s[i]) + HighWater(s[i + 1..]))
  {
  }

  /** The final peak is known at every step: what has been seen, or what the rest will add to the current level. */
  lemma SweepStep(s: seq<Event>, i: nat, current: int, peak: int)
    requires i < |s| && peak >= current
    ensures var next := current + Delta(s[i]);
            Max(Max(peak, next), next + HighWater(s[i + 1..])) == Max(peak, current + HighWater(s[i..]))
  {
    HighWaterStep(s, i);
  }

  lemma OverlapIsPeakWhenWellTimed(nodes: seq<NodeTimes>)
    ensures (forall n :: n in nodes ==> WellTimed(n)) ==> IsPeak(nodes, Overlap(nodes))
  {
    if forall n :: n in nodes ==> WellTimed(n) {
      OverlapIsPeak(nodes);
    }
  }

  /** The judge's two loops: collect the events, then sweep them in order. */
  method MaxOverlap(nodes: seq<NodeTimes>) returns (peak: int)
    ensures peak == Overlap(nodes)
    ensures (forall n :: n in nodes ==> WellTimed(n)) ==> IsPeak(nodes, peak)
  {
    OverlapIsPeakWhenWellTimed(nodes);
    var events: seq<Event> := [];
    for i := 0 to |nodes|
      invariant events == Events(nodes[..i])
    {
      EventsGrow(nodes, i);
      if nodes[i].started.Some? && nodes[i].completed.Some? {
        events := events + [Event(nodes[i].started.value, Start), Event(nodes[i].completed.value, End)];
      }
    }
    assert nodes[..|nodes|] == nodes;
    if events == [] {
      return 1;
    }
    events := Sort(Before, events);
    var current := 0;
    peak := 0;
    for i := 0 to |events|
      invariant peak >= current && peak >= 0
      invariant Max(peak, current + HighWater(events[i..])) == HighWater(events)
    {
      SweepStep(events, i, current, peak);
      current := current + Delta(events[i]);
      peak := Max(peak, current);
    }
    peak := Max(peak, 1);
  }
}
