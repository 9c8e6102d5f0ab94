/**
  The policy behind both rate limiters: at most `max` grants of a key in every half-open
  window of `duration` time units.  The reference limiter below never forgets a grant; the
  two implementations are compared with it.
 */
module SlidingWindow {
  import opened Collections

  datatype Policy = Policy(max: int, duration: int)

  ghost predicate Sorted(times: seq<int>) {
    forall i, j :: 0 <= i < j < |times| ==> times[i] <= times[j]
  }

  /** The positions of the `times` that lie in [start, start + duration). */
  ghost function Inside(p: Policy, times: seq<int>, start: int): set<int> {
    set i | 0 <= i < |times| && start <= times[i] < start + p.duration
  }

  ghost function Load(p: Policy, times: seq<int>, start: int): nat {
    |Inside(p, times, start)|
  }

  ghost predicate Safe(p: Policy, times: seq<int>) {
    forall start :: Load(p, times, start) <= p.max
  }

  /** A grant comes at least `duration` after the one `max` places before it. */
  ghost predicate Spaced(p: Policy, times: seq<int>)
    requires p.max >= 1
  {
    forall i :: 0 <= i < |times| - p.max ==> times[i + p.max] - times[i] >= p.duration
  }

  /** The reference decision, taken on the complete history of grants. */
  ghost predicate Admits(p: Policy, granted: seq<int>, now: int)
    requires p.max >= 1
  {
    |granted| < p.max || now - granted[|granted| - p.max] >= p.duration
  }

  /** The grants of the reference limiter for requests arriving at the given times. */
  ghost function Greedy(p: Policy, arrivals: seq<int>): seq<int>
    requires p.max >= 1
  {
    if arrivals == [] then []
    else
      var before := Greedy(p, arrivals[..|arrivals| - 1]);
      var now := arrivals[|arrivals| - 1];
      if Admits(p, before, now) then before + [now] else before
  }

  // ---- Window load and spacing ----

  lemma SpacedBoundsLoad(p: Policy, times: seq<int>, start: int)
    requires p.max >= 1 && Sorted(times) && Spaced(p, times)
    ensures Load(p, times, start) <= p.max
  {
    var inside := Inside(p, times, start);
    if inside != {} {
      var first := Least(inside);
      if first + p.max < |times| {
        assert times[first + p.max] - times[first] >= p.duration;
      }
      IntervalSize(inside, first, p.max);
    }
  }

  /** Spacing is the sliding-window bound, in both directions. */
  lemma SpacedIffSafe(p: Policy, times: seq<int>)
    requires p.max >= 1 && Sorted(times)
    ensures Spaced(p, times) <==> Safe(p, times)
  {
    if Spaced(p, times) {
      forall start ensures Load(p, times, start) <= p.max {
        SpacedBoundsLoad(p, times, start);
      }
    } else {
      var i :| 0 <= i < |times| - p.max && times[i + p.max] - times[i] < p.duration;
      SubsetSize(Interval(i, p.max + 1), Inside(p, times, times[i]));
      assert Load(p, times, times[i]) > p.max;
    }
  }

  // ---- The reference limiter ----

  lemma GreedyNext(p: Policy, arrivals: seq<int>, now: int)
    requires p.max >= 1
    ensures Greedy(p, arrivals + [now]) ==
            if Admits(p, Greedy(p, arrivals), now) then Greedy(p, arrivals) + [now] else Greedy(p, arrivals)
  {
    assert (arrivals + [now])[..|arrivals|] == arrivals;
  }

  lemma AdmittedShape(p: Policy, granted: seq<int>, now: int)
    requires p.max >= 1 && Sorted(granted) && Spaced(p, granted) && Admits(p, granted, now)
    requires forall i :: 0 <= i < |granted| ==> granted[i] <= now
    ensures Sorted(granted + [now]) && Spaced(p, granted + [now])
  {
    var all := granted + [now];
    forall i | 0 <= i < |all| - p.max ensures all[i + p.max] - all[i] >= p.duration {
      if i + p.max < |granted| {
        assert granted[i + p.max] - granted[i] >= p.duration;
      }
    }
  }

  lemma {:induction false} GreedyShape(p: Policy, arrivals: seq<int>)
    requires p.max >= 1 && Sorted(arrivals)
    ensures Sorted(Greedy(p, arrivals)) && Spaced(p, Greedy(p, arrivals))
    ensures forall i :: 0 <= i < |Greedy(p, arrivals)| ==> Greedy(p, arrivals)[i] <= arrivals[|arrivals| - 1]
    ensures |Greedy(p, arrivals)| <= |arrivals|
  {
    hide Spaced, Admits;
    if arrivals == [] {
      NothingSpaced(p);
    } else {
      var (before, now) := (arrivals[..|arrivals| - 1], arrivals[|arrivals| - 1]);
      GreedyShape(p, before);
      if before != [] {
        assert before[|before| - 1] == arrivals[|arrivals| - 2] <= now;
      }
      if Admits(p, Greedy(p, before), now) {
        AdmittedShape(p, Greedy(p, before), now);
      }
    }
  }

  lemma NothingSpaced(p: Policy)
    requires p.max >= 1
    ensures Spaced(p, [])
  {
  }

  /** The times of the requests that a competing schedule lets through. */
  ghost function Chosen(arrivals: seq<int>, choice: seq<bool>): seq<int>
    requires |choice| == |arrivals|
  {
    if arrivals == [] then []
    else
      var n := |arrivals| - 1;
      Chosen(arrivals[..n], choice[..n]) + (if choice[n] then [arrivals[n]] else [])
  }

  lemma {:induction false} ChosenSorted(arrivals: seq<int>, choice: seq<bool>)
    requires |choice| == |arrivals| && Sorted(arrivals)
    ensures Sorted(Chosen(arrivals, choice))
    ensures forall i :: 0 <= i < |Chosen(arrivals, choice)| ==> Chosen(arrivals, choice)[i] <= arrivals[|arrivals| - 1]
    ensures |Chosen(arrivals, choice)| <= |arrivals|
  {
    if arrivals != [] {
      var n := |arrivals| - 1;
      ChosenSorted(arrivals[..n], choice[..n]);
      if n >= 1 {
        assert arrivals[n - 1] <= arrivals[n];
      }
    }
  }

  /** `ahead` has at least as many grants as `behind`, each no later. */
  ghost predicate Dominates(ahead: seq<int>, behind: seq<int>) {
    |behind| <= |ahead| && forall k :: 0 <= k < |behind| ==> ahead[k] <= behind[k]
  }

  lemma {:induction false} GreedyDominatesSpaced(p: Policy, arrivals: seq<int>, choice: seq<bool>)
    requires p.max >= 1 && |choice| == |arrivals| && Sorted(arrivals)
    requires Spaced(p, Chosen(arrivals, choice))
    ensures Dominates(Greedy(p, arrivals), Chosen(arrivals, choice))
  {
    if arrivals != [] {
      var n := |arrivals| - 1;
      var rival, all := Chosen(arrivals[..n], choice[..n]), Chosen(arrivals, choice);
      assert forall i :: 0 <= i < |rival| ==> all[i] == rival[i];
      GreedyDominatesSpaced(p, arrivals[..n], choice[..n]);
      var mine := Greedy(p, arrivals[..n]);
      GreedyShape(p, arrivals);
      if choice[n] && |mine| == |rival| && |mine| >= p.max {
        assert all[|rival|] - all[|rival| - p.max] >= p.duration;
        assert Admits(p, mine, arrivals[n]);
      }
      GreedyShape(p, arrivals[..n]);
      if choice[n] && |mine| > |rival| {
        assert mine[|rival|] <= arrivals[n];
      }
    }
  }

  /** No schedule that respects every window has its k-th grant before the reference limiter's. */
  lemma {:induction false} GreedyOptimal(p: Policy, arrivals: seq<int>, choice: seq<bool>)
    requires p.max >= 1 && |choice| == |arrivals| && Sorted(arrivals)
    requires Safe(p, Chosen(arrivals, choice))
    ensures Dominates(Greedy(p, arrivals), Chosen(arrivals, choice))
  {
    ChosenSorted(arrivals, choice);
    SpacedIffSafe(p, Chosen(arrivals, choice));
    GreedyDominatesSpaced(p, arrivals, choice);
  }

  /** A refusal finds the last `max` grants in the window. */
  lemma FullWhenRefused(p: Policy, granted: seq<int>, now: int)
    requires p.max >= 1 && Sorted(granted) && !Admits(p, granted, now)
    requires forall i :: 0 <= i < |granted| ==> granted[i] <= now
    ensures Load(p, granted, now - p.duration + 1) >= p.max
  {
    var start := now - p.duration + 1;
    var lo := |granted| - p.max;
    forall i | i in Interval(lo, p.max) ensures i in Inside(p, granted, start) {
      assert granted[lo] <= granted[i];
    }
    SubsetSize(Interval(lo, p.max), Inside(p, granted, start));
  }

  /** An admission finds fewer. */
  lemma RoomWhenAdmitted(p: Policy, granted: seq<int>, now: int)
    requires p.max >= 1 && Sorted(granted) && Admits(p, granted, now)
    ensures Load(p, granted, now - p.duration + 1) < p.max
  {
    var inside := Inside(p, granted, now - p.duration + 1);
    var lo := |granted| - p.max;
    if lo < 0 {
      IntervalSize(inside, 0, |granted|);
    } else {
      assert forall i :: 0 <= i <= lo ==> granted[i] <= granted[lo];
      IntervalSize(inside, lo + 1, p.max - 1);
    }
  }

  /** The reference limiter refuses exactly when the last `duration` already holds `max` grants. */
  lemma RefusesIffWindowFull(p: Policy, granted: seq<int>, now: int)
    requires p.max >= 1 && Sorted(granted) && Spaced(p, granted)
    requires forall i :: 0 <= i < |granted| ==> granted[i] <= now
    ensures !Admits(p, granted, now) <==> Load(p, granted, now - p.duration + 1) == p.max
  {
    hide Load;
    SpacedBoundsLoad(p, granted, now - p.duration + 1);
    if Admits(p, granted, now) {
      RoomWhenAdmitted(p, granted, now);
    } else {
      FullWhenRefused(p, granted, now);
    }
  }

  // ---- What an implementation that forgets must still remember ----

  /**
    `kept` is the tail of the full history, at most `max` long, and whenever it is shorter
    than `max` everything before it is out of the window for good.
   */
  ghost predicate Remembers(p: Policy, kept: seq<int>, granted: seq<int>, now: int) {
    && |kept| <= p.max
    && |kept| <= |granted|
    && kept == granted[|granted| - |kept|..]
    && (|kept| < p.max ==>
          forall i :: 0 <= i < |granted| - |kept| ==> now - granted[i] >= p.duration)
  }

  /** A queue that remembers enough decides like the full history, and keeps remembering enough. */
  lemma RemembersDecides(p: Policy, kept: seq<int>, granted: seq<int>, earlier: int, now: int)
    requires p.max >= 1 && Remembers(p, kept, granted, earlier) && earlier <= now
    ensures Admits(p, granted, now) <==> |kept| < p.max || now - kept[0] >= p.duration
    ensures Remembers(p, kept, granted, now)
    ensures Remembers(p, (if |kept| < p.max then kept else kept[1..]) + [now], granted + [now], now)
  {
  }
}
