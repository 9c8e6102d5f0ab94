/**
  The Redis rate limiter: a list of grant times (milliseconds, newest first) for each key, and a
  key expiry that starts again on every request, refused ones included.  It is compared with the
  in-memory limiter on the same traces.
 */
module RedisRateLimiter {
  import opened Wrappers
  import opened SlidingWindow
  import Memory = InMemoryRateLimiter

  /** A Redis list and the time at which Redis drops its key, if it has one. */
  datatype Entry = Entry(items: seq<int>, expiresAt: Option<int>)

  type Entries = map<string, Entry>

  datatype Outcome = Granted | Refused | ServerError

  predicate Live(entries: Entries, key: string, now: int) {
    key in entries && (entries[key].expiresAt.Some? ==> now < entries[key].expiresAt.value)
  }

  function Items(entries: Entries, key: string, now: int): seq<int> {
    if Live(entries, key, now) then entries[key].items else []
  }

  /** A duration in whole seconds, cut off towards zero. */
  function WholeSeconds(milliseconds: int): int {
    if milliseconds >= 0 then milliseconds / 1000 else -((-milliseconds) / 1000)
  }

  /** The effect and the answer of one request. */
  function Requested(entries: Entries, key: string, max: int, duration: int, expiration: int, now: int)
    : (Entries, Outcome)
  {
    var items, expiry := Items(entries, key, now), Some(now + expiration * 1000);
    if |items| < max then (entries[key := Entry([now] + items, expiry)], Granted)
    else if items == [] then (if Live(entries, key, now) then entries else entries - {key}, ServerError)
    else if WholeSeconds(now - items[|items| - 1]) < duration then (entries[key := Entry(items, expiry)], Refused)
    else (entries[key := Entry(Trimmed([now] + items, max - 1), expiry)], Granted)
  }

  /** What is left of a list after LTRIM 0 `stop`; a negative `stop` counts from the end. */
  function Trimmed(items: seq<int>, stop: int): seq<int> {
    var end := if stop < 0 then |items| + stop else stop;
    if end < 0 then [] else if end + 1 <= |items| then items[..end + 1] else items
  }

  /** The Redis commands the limiter sends, each of them atomic. */
  class Server {
    var entries: Entries

    method LLen(key: string, now: int) returns (length: nat)
      modifies this
      ensures entries == if Live(old(entries), key, now) then old(entries) else old(entries) - {key}
      ensures length == |Items(old(entries), key, now)|
    {
      if key in entries && entries[key].expiresAt.Some? && entries[key].expiresAt.value <= now {
        entries := entries - {key};
      }
      length := if key in entries then |entries[key].items| else 0;
      assert key !in entries ==> entries == entries - {key};
    }

    method LPush(key: string, item: int)
      modifies this
      ensures entries == old(entries)[key :=
                if key in old(entries) then old(entries)[key].(items := [item] + old(entries)[key].items)
                else Entry([item], None)]
    {
      var entry := if key in entries then entries[key] else Entry([], None);
      assert [item] + [] == [item];
      entries := entries[key := entry.(items := [item] + entry.items)];
    }

    method LIndexLast(key: string) returns (item: Option<int>)
      ensures item == if key in entries && entries[key].items != []
                      then Some(entries[key].items[|entries[key].items| - 1]) else None
    {
      if key in entries && entries[key].items != [] {
        return Some(entries[key].items[|entries[key].items| - 1]);
      }
      return None;
    }

    method LTrim(key: string, stop: int)
      requires key in entries
      modifies this
      ensures entries == old(entries)[key := old(entries)[key].(items := Trimmed(old(entries)[key].items, stop))]
    {
      entries := entries[key := entries[key].(items := Trimmed(entries[key].items, stop))];
    }

    method Expire(key: string, at: int)
      modifies this
      ensures entries == if key in old(entries)
                         then old(entries)[key := old(entries)[key].(expiresAt := Some(at))] else old(entries)
    {
      if key in entries {
        entries := entries[key := entries[key].(expiresAt := Some(at))];
      }
    }
  }

  method Limit(rdb: Server, key: string, maxRequestNum: int, duration: int, expiration: int, now: int)
    returns (outcome: Outcome)
    modifies rdb
    ensures (rdb.entries, outcome) == Requested(old(rdb.entries), key, maxRequestNum, duration, expiration, now)
  {
    var listLength := rdb.LLen(key, now);
    if listLength < maxRequestNum {
      rdb.LPush(key, now);
      rdb.Expire(key, now + expiration * 1000);
      assert [now] + [] == [now];
      assert rdb.entries == Requested(old(rdb.entries), key, maxRequestNum, duration, expiration, now).0;
      return Granted;
    }
    var oldTime := rdb.LIndexLast(key);
    if oldTime.None? {
      return ServerError;
    }
    if WholeSeconds(now - oldTime.value) < duration {
      rdb.Expire(key, now + expiration * 1000);
      return Refused;
    } else {
      rdb.LPush(key, now);
      rdb.LTrim(key, maxRequestNum - 1);
      rdb.Expire(key, now + expiration * 1000);
      assert rdb.entries == Requested(old(rdb.entries), key, maxRequestNum, duration, expiration, now).0;
      return Granted;
    }
  }

  // ---- Histories ----

  /** Cleaner passes of the in-memory limiter do not reach Redis. */
  function Step(cfg: Memory.Config, entries: Entries, event: Memory.Event): Entries {
    match event
    case Request(key, at) =>
      Requested(entries, key, cfg.policy(key).max, cfg.policy(key).duration, cfg.expiration, at).0
    case Clean(_) => entries
  }

  /** The answer to a request for `key` that finds the given entries. */
  function Answer(cfg: Memory.Config, entries: Entries, key: string, at: int): Outcome {
    Requested(entries, key, cfg.policy(key).max, cfg.policy(key).duration, cfg.expiration, at).1
  }

  function EntriesAfter(cfg: Memory.Config, events: seq<Memory.Event>): Entries {
    if events == [] then map[]
    else Step(cfg, EntriesAfter(cfg, events[..|events| - 1]), events[|events| - 1])
  }

  /** The same policy with its duration in milliseconds. */
  function Fine(p: Policy): Policy {
    Policy(p.max, p.duration * 1000)
  }

  /** The request times of a key, in milliseconds. */
  function Arrivals(events: seq<Memory.Event>, key: string): seq<int> {
    if events == [] then []
    else
      var before, last := Arrivals(events[..|events| - 1], key), events[|events| - 1];
      if Memory.Concerns(last, key) then before + [last.at] else before
  }

  function Grants(cfg: Memory.Config, events: seq<Memory.Event>, key: string): seq<int> {
    if events == [] then []
    else
      var before, last := events[..|events| - 1], events[|events| - 1];
      var granted := Grants(cfg, before, key);
      if Memory.Concerns(last, key) && Answer(cfg, EntriesAfter(cfg, before), key, last.at) == Granted
      then granted + [last.at] else granted
  }

  function Reversed(items: seq<int>): (oldestFirst: seq<int>)
    ensures |oldestFirst| == |items|
    ensures forall i :: 0 <= i < |items| ==> oldestFirst[i] == items[|items| - 1 - i]
  {
    seq(|items|, i requires 0 <= i < |items| => items[|items| - 1 - i])
  }

  /**
    The list is a sufficient memory of the history for as long as its key lives, and by the time
    Redis drops the key every grant is out of the window.
   */
  ghost predicate Remembered(p: Policy, entries: Entries, key: string, granted: seq<int>, now: int) {
    && Remembers(Fine(p), Reversed(Items(entries, key, now)), granted, now)
    && (key in entries ==>
          && entries[key].expiresAt.Some?
          && Outlasts(entries[key].expiresAt.value, p, granted))
  }

  /** Whatever came of it, the last request for a key decides when Redis drops the key. */
  lemma {:induction false} LastRequestSetsExpiry(cfg: Memory.Config, events: seq<Memory.Event>, key: string)
    requires cfg.policy(key).max >= 1
    ensures var (entries, arrivals) := (EntriesAfter(cfg, events), Arrivals(events, key));
            if arrivals == [] then key !in entries
            else key in entries && entries[key].expiresAt == Some(arrivals[|arrivals| - 1] + 1000 * cfg.expiration)
  {
    if events != [] {
      hide Items, WholeSeconds, Trimmed;
      LastRequestSetsExpiry(cfg, events[..|events| - 1], key);
    }
  }

  /** By the time `deadline` every grant is out of the window. */
  ghost predicate Outlasts(deadline: int, p: Policy, granted: seq<int>) {
    forall i :: 0 <= i < |granted| ==> deadline - granted[i] >= p.duration * 1000
  }

  ghost predicate NoLater(granted: seq<int>, now: int) {
    forall i :: 0 <= i < |granted| ==> granted[i] <= now
  }

  lemma NoLaterGrows(granted: seq<int>, earlier: int, now: int)
    requires NoLater(granted, earlier) && earlier <= now
    ensures NoLater(granted, now) && NoLater(granted + [earlier], now)
  {
  }

  /** Waiting, whether or not the key expires meanwhile, loses nothing. */
  lemma WaitingRemembers(p: Policy, entries: Entries, key: string, granted: seq<int>, earlier: int, now: int)
    requires p.max >= 1 && earlier <= now && Remembered(p, entries, key, granted, earlier)
    ensures Remembered(p, entries, key, granted, now)
  {
    RemembersDecides(Fine(p), Reversed(Items(entries, key, earlier)), granted, earlier, now);
    if Items(entries, key, now) != Items(entries, key, earlier) {
      assert Reversed(Items(entries, key, now)) == granted[|granted|..];
    }
  }

  lemma RequestDecides(p: Policy, expiration: int, entries: Entries, key: string, granted: seq<int>, now: int)
    requires p.max >= 1 && Remembered(p, entries, key, granted, now)
    requires NoLater(granted, now)
    ensures Requested(entries, key, p.max, p.duration, expiration, now).1
            == if Admits(Fine(p), granted, now) then Granted else Refused
  {
    var items := Items(entries, key, now);
    RemembersDecides(Fine(p), Reversed(items), granted, now, now);
    if |items| >= p.max {
      assert Reversed(items)[0] == granted[|granted| - |items|] == items[|items| - 1];
    }
  }

  /** What the list becomes when a request is granted, read oldest first. */
  lemma GrantedItems(p: Policy, expiration: int, entries: Entries, key: string, now: int)
    requires p.max >= 1 && 0 < expiration
    requires |Items(entries, key, now)| <= p.max
    requires Requested(entries, key, p.max, p.duration, expiration, now).1 == Granted
    ensures var (next, items) := (Requested(entries, key, p.max, p.duration, expiration, now).0, Items(entries, key, now));
            Reversed(Items(next, key, now))
              == (if |items| < p.max then Reversed(items) else Reversed(items)[1..]) + [now]
  {
    var items := Items(entries, key, now);
    var next := Requested(entries, key, p.max, p.duration, expiration, now).0;
    assert Live(next, key, now);
    if |items| < p.max {
      assert Items(next, key, now) == [now] + items;
    } else {
      assert Items(next, key, now) == [now] + items[..p.max - 1];
    }
  }

  lemma NewDeadlineOutlasts(p: Policy, expiration: int, granted: seq<int>, now: int)
    requires 0 < expiration && p.duration <= expiration && NoLater(granted, now)
    ensures Outlasts(now + expiration * 1000, p, granted) && Outlasts(now + expiration * 1000, p, granted + [now])
  {
  }

  lemma GrantRemembers(p: Policy, expiration: int, entries: Entries, key: string, granted: seq<int>, now: int)
    requires p.max >= 1 && 0 < expiration && p.duration <= expiration
    requires Remembered(p, entries, key, granted, now) && NoLater(granted, now)
    requires Requested(entries, key, p.max, p.duration, expiration, now).1 == Granted
    ensures Remembered(p, Requested(entries, key, p.max, p.duration, expiration, now).0, key, granted + [now], now)
  {
    hide Admits, Outlasts, NoLater, Remembers, Requested, Items, Reversed;
    KeptRemembers(p, Reversed(Items(entries, key, now)), granted, now);
    GrantedItems(p, expiration, entries, key, now);
    NewExpiry(entries, key, p.max, p.duration, expiration, now);
    NewDeadlineOutlasts(p, expiration, granted, now);
  }

  lemma KeptRemembers(p: Policy, kept: seq<int>, granted: seq<int>, now: int)
    requires p.max >= 1 && Remembers(Fine(p), kept, granted, now)
    ensures |kept| <= p.max
    ensures Remembers(Fine(p), (if |kept| < p.max then kept else kept[1..]) + [now], granted + [now], now)
  {
    RemembersDecides(Fine(p), kept, granted, now, now);
  }

  /** Every answer but an error restarts the expiry of the key. */
  lemma NewExpiry(entries: Entries, key: string, max: int, duration: int, expiration: int, now: int)
    ensures var (next, outcome) := Requested(entries, key, max, duration, expiration, now);
            outcome != ServerError ==> key in next && next[key].expiresAt == Some(now + expiration * 1000)
  {
    hide Items, WholeSeconds, Trimmed;
  }

  lemma RefusalRemembers(p: Policy, expiration: int, entries: Entries, key: string, granted: seq<int>, now: int)
    requires p.max >= 1 && 0 < expiration && p.duration <= expiration
    requires Remembered(p, entries, key, granted, now) && NoLater(granted, now)
    requires Requested(entries, key, p.max, p.duration, expiration, now).1 == Refused
    ensures Remembered(p, Requested(entries, key, p.max, p.duration, expiration, now).0, key, granted, now)
  {
    hide Remembers, Outlasts, NoLater;
    var next := Requested(entries, key, p.max, p.duration, expiration, now).0;
    assert Items(next, key, now) == Items(entries, key, now);
    NewDeadlineOutlasts(p, expiration, granted, now);
  }

  lemma {:induction false} ArrivalsSorted(events: seq<Memory.Event>, key: string)
    requires Memory.Ordered(events)
    ensures Sorted(Arrivals(events, key))
    ensures forall i :: 0 <= i < |Arrivals(events, key)| ==> Arrivals(events, key)[i] <= events[|events| - 1].at
    ensures |Arrivals(events, key)| <= |events|
  {
    if events != [] {
      var n := |events| - 1;
      ArrivalsSorted(events[..n], key);
      assert n >= 1 ==> events[n - 1].at <= events[n].at;
    }
  }

  lemma StepRemembers(cfg: Memory.Config, entries: Entries, event: Memory.Event, key: string, granted: seq<int>)
    requires cfg.policy(key).max >= 1 && 0 < cfg.expiration && cfg.policy(key).duration <= cfg.expiration
    requires Remembered(cfg.policy(key), entries, key, granted, event.at)
    requires NoLater(granted, event.at)
    ensures Answer(cfg, entries, key, event.at) == Granted <==> Admits(Fine(cfg.policy(key)), granted, event.at)
    ensures Remembered(cfg.policy(key), Step(cfg, entries, event), key,
                       if Memory.Concerns(event, key) && Admits(Fine(cfg.policy(key)), granted, event.at)
                       then granted + [event.at] else granted, event.at)
  {
    hide Admits, Remembers, Outlasts, NoLater;
    RequestDecides(cfg.policy(key), cfg.expiration, entries, key, granted, event.at);
    if Memory.Concerns(event, key) {
      if Admits(Fine(cfg.policy(key)), granted, event.at) {
        GrantRemembers(cfg.policy(key), cfg.expiration, entries, key, granted, event.at);
      } else {
        RefusalRemembers(cfg.policy(key), cfg.expiration, entries, key, granted, event.at);
      }
    } else {
      var next := Step(cfg, entries, event);
      assert key in next <==> key in entries;
      assert Items(next, key, event.at) == Items(entries, key, event.at);
    }
  }

  /** Redis, too, decides like the limiter that never forgets, with a window counted in milliseconds. */
  lemma {:induction false} GrantsAreGreedy(cfg: Memory.Config, events: seq<Memory.Event>, key: string, now: int)
    requires Memory.Ordered(events) && Memory.After(events, now)
    requires cfg.policy(key).max >= 1 && 0 < cfg.expiration && cfg.policy(key).duration <= cfg.expiration
    ensures Grants(cfg, events, key) == Greedy(Fine(cfg.policy(key)), Arrivals(events, key))
    ensures Remembered(cfg.policy(key), EntriesAfter(cfg, events), key, Grants(cfg, events, key), now)
    ensures NoLater(Grants(cfg, events, key), now)
  {
    if events != [] {
      hide Admits, Requested, Step, Answer, Remembered, Greedy, NoLater;
      var p, n := cfg.policy(key), |events| - 1;
      var before, last := events[..n], events[n];
      var granted := Grants(cfg, before, key);
      GrantsAreGreedy(cfg, before, key, last.at);
      StepRemembers(cfg, EntriesAfter(cfg, before), last, key, granted);
      WaitingRemembers(p, EntriesAfter(cfg, events), key, Grants(cfg, events, key), last.at, now);
      GreedyNext(Fine(p), Arrivals(before, key), last.at);
      NoLaterGrows(granted, last.at, now);
    }
  }

  lemma AnswersAreAdmissions(cfg: Memory.Config, events: seq<Memory.Event>, key: string, at: int)
    requires Memory.Ordered(events) && Memory.After(events, at)
    requires cfg.policy(key).max >= 1 && 0 < cfg.expiration && cfg.policy(key).duration <= cfg.expiration
    ensures Answer(cfg, EntriesAfter(cfg, events), key, at)
            == if Admits(Fine(cfg.policy(key)), Greedy(Fine(cfg.policy(key)), Arrivals(events, key)), at)
               then Granted else Refused
  {
    GrantsAreGreedy(cfg, events, key, at);
    RequestDecides(cfg.policy(key), cfg.expiration, EntriesAfter(cfg, events), key, Grants(cfg, events, key), at);
  }

  // ---- Agreement with the in-memory limiter ----

  /** All requests of a key fall on the same millisecond of their second, as whole-second times do. */
  ghost predicate InPhase(events: seq<Memory.Event>, key: string, phase: int) {
    forall i :: 0 <= i < |events| && Memory.Concerns(events[i], key) ==> events[i].at % 1000 == phase
  }

  /** `coarse` is `fine` rounded down to seconds. */
  ghost predicate Rounds(fine: seq<int>, coarse: seq<int>) {
    |coarse| == |fine| && forall i :: 0 <= i < |fine| ==> coarse[i] == Memory.Unix(fine[i])
  }

  lemma {:induction false} GreedyScales(p: Policy, events: seq<Memory.Event>, key: string, phase: int)
    requires p.max >= 1 && InPhase(events, key, phase)
    ensures Rounds(Greedy(Fine(p), Arrivals(events, key)), Greedy(p, Memory.Arrivals(events, key)))
    ensures forall i :: 0 <= i < |Greedy(Fine(p), Arrivals(events, key))| ==>
              Greedy(Fine(p), Arrivals(events, key))[i] % 1000 == phase
  {
    if events != [] {
      var n := |events| - 1;
      var before, last := events[..n], events[n];
      GreedyScales(p, before, key, phase);
      if Memory.Concerns(last, key) {
        GreedyNext(Fine(p), Arrivals(before, key), last.at);
        GreedyNext(p, Memory.Arrivals(before, key), Memory.Unix(last.at));
        AdmissionScales(p, Greedy(Fine(p), Arrivals(before, key)), Greedy(p, Memory.Arrivals(before, key)), last.at, phase);
      }
    }
  }

  lemma AdmissionScales(p: Policy, fine: seq<int>, coarse: seq<int>, now: int, phase: int)
    requires p.max >= 1 && Rounds(fine, coarse) && now % 1000 == phase
    requires forall i :: 0 <= i < |fine| ==> fine[i] % 1000 == phase
    ensures Admits(Fine(p), fine, now) <==> Admits(p, coarse, Memory.Unix(now))
  {
  }

  /**
    On every trace whose requests of a key are in phase, and with any schedule of cleaner passes,
    both limiters give every request of that key the same answer.
   */
  lemma LimitersAgree(cfg: Memory.Config, events: seq<Memory.Event>, key: string, at: int, phase: int)
    requires Memory.Ordered(events) && Memory.After(events, at)
    requires InPhase(events, key, phase) && at % 1000 == phase
    requires cfg.policy(key).max >= 1 && 0 < cfg.expiration && cfg.policy(key).duration <= cfg.expiration
    ensures Answer(cfg, EntriesAfter(cfg, events), key, at)
            == if Memory.Allowed(cfg, Memory.StoreAfter(cfg, events), key, at) then Granted else Refused
  {
    var p := cfg.policy(key);
    AnswersAreAdmissions(cfg, events, key, at);
    Memory.AnswersAreAdmissions(cfg, events, key, at);
    GreedyScales(p, events, key, phase);
    AdmissionScales(p, Greedy(Fine(p), Arrivals(events, key)), Greedy(p, Memory.Arrivals(events, key)), at, phase);
  }

  /** Which requests of a key Redis grants. */
  function Decisions(cfg: Memory.Config, events: seq<Memory.Event>, key: string): (choice: seq<bool>)
    ensures |choice| == |Memory.Arrivals(events, key)|
  {
    if events == [] then []
    else
      var before, last := events[..|events| - 1], events[|events| - 1];
      if Memory.Concerns(last, key)
      then Decisions(cfg, before, key) + [Answer(cfg, EntriesAfter(cfg, before), key, last.at) == Granted]
      else Decisions(cfg, before, key)
  }

  lemma {:induction false} DecisionsChooseGrants(cfg: Memory.Config, events: seq<Memory.Event>, key: string)
    ensures Rounds(Grants(cfg, events, key), Chosen(Memory.Arrivals(events, key), Decisions(cfg, events, key)))
  {
    if events != [] {
      var before, last := events[..|events| - 1], events[|events| - 1];
      DecisionsChooseGrants(cfg, before, key);
      if Memory.Concerns(last, key) {
        var arrivals, choice := Memory.Arrivals(events, key), Decisions(cfg, events, key);
        assert arrivals[..|arrivals| - 1] == Memory.Arrivals(before, key);
        assert choice[..|choice| - 1] == Decisions(cfg, before, key);
      }
    }
  }

  /** In or out of phase, Redis never has its k-th grant in an earlier second than the in-memory limiter. */
  lemma RedisNeverAhead(cfg: Memory.Config, events: seq<Memory.Event>, key: string)
    requires Memory.Ordered(events)
    requires cfg.policy(key).max >= 1 && 0 < cfg.expiration && cfg.policy(key).duration <= cfg.expiration
    ensures |Grants(cfg, events, key)| <= |Memory.Grants(cfg, events, key)|
    ensures forall k :: 0 <= k < |Grants(cfg, events, key)| ==>
              Memory.Grants(cfg, events, key)[k] <= Memory.Unix(Grants(cfg, events, key)[k])
  {
    var p, now := cfg.policy(key), if events == [] then 0 else events[|events| - 1].at;
    var granted, arrivals, choice := Grants(cfg, events, key), Memory.Arrivals(events, key), Decisions(cfg, events, key);
    DecisionsChooseGrants(cfg, events, key);
    assert Spaced(Fine(p), granted) by {
      GrantsAreGreedy(cfg, events, key, now);
      ArrivalsSorted(events, key);
      GreedyShape(Fine(p), Arrivals(events, key));
    }
    var rounded := Chosen(arrivals, choice);
    forall i | 0 <= i < |rounded| - p.max ensures rounded[i + p.max] - rounded[i] >= p.duration {
      assert granted[i + p.max] - granted[i] >= p.duration * 1000;
    }
    Memory.ArrivalsSorted(events, key);
    ChosenSorted(arrivals, choice);
    SpacedIffSafe(p, rounded);
    Memory.GrantsOptimal(cfg, events, key, choice);
  }

  // ---- When the window is respected ----

  lemma GrantsSafe(cfg: Memory.Config, events: seq<Memory.Event>, key: string)
    requires Memory.Ordered(events)
    requires cfg.policy(key).max >= 1 && 0 < cfg.expiration && cfg.policy(key).duration <= cfg.expiration
    ensures Safe(Fine(cfg.policy(key)), Grants(cfg, events, key))
  {
    var p := Fine(cfg.policy(key));
    GrantsAreGreedy(cfg, events, key, if events == [] then 0 else events[|events| - 1].at);
    ArrivalsSorted(events, key);
    GreedyShape(p, Arrivals(events, key));
    SpacedIffSafe(p, Grants(cfg, events, key));
  }

  lemma {:induction false} BurstGranted(cfg: Memory.Config, key: string, at: int, n: nat)
    requires n <= cfg.policy(key).max && 0 < cfg.expiration
    ensures Grants(cfg, Memory.Burst(key, at, n), key) == seq(n, _ => at)
    ensures var entries := EntriesAfter(cfg, Memory.Burst(key, at, n));
            if n == 0 then entries == map[]
            else key in entries && |entries[key].items| == n && entries[key].expiresAt == Some(at + cfg.expiration * 1000)
  {
    if n != 0 {
      assert Memory.Burst(key, at, n)[..n - 1] == Memory.Burst(key, at, n - 1);
      BurstGranted(cfg, key, at, n - 1);
      assert seq(n, _ => at) == seq(n - 1, _ => at) + [at];
    }
  }

  /** A full window, and one request more when Redis has just dropped the key. */
  lemma LateGrants(cfg: Memory.Config, key: string) returns (events: seq<Memory.Event>)
    requires cfg.policy(key).max >= 1 && cfg.expiration > 0
    ensures Memory.Ordered(events)
    ensures Grants(cfg, events, key) == seq(cfg.policy(key).max, _ => 0) + [cfg.expiration * 1000]
  {
    var burst := Memory.Burst(key, 0, cfg.policy(key).max);
    var late := cfg.expiration * 1000;
    BurstGranted(cfg, key, 0, cfg.policy(key).max);
    events := burst + [Memory.Request(key, late)];
    assert events[..|burst|] == burst;
    assert Items(EntriesAfter(cfg, burst), key, late) == [];
  }

  /** Redis respects the window on every history exactly when the duration is no longer than the expiration. */
  lemma SafeIffDurationFits(cfg: Memory.Config, key: string)
    requires cfg.policy(key).max >= 1 && cfg.expiration > 0
    ensures (forall events :: Memory.Ordered(events) ==> Safe(Fine(cfg.policy(key)), Grants(cfg, events, key)))
            <==> cfg.policy(key).duration <= cfg.expiration
  {
    var p := Fine(cfg.policy(key));
    if cfg.policy(key).duration <= cfg.expiration {
      forall events | Memory.Ordered(events) ensures Safe(p, Grants(cfg, events, key)) {
        GrantsSafe(cfg, events, key);
      }
    } else {
      var events := LateGrants(cfg, key);
      var granted := Grants(cfg, events, key);
      SpacedIffSafe(p, granted);
      assert granted[0 + p.max] - granted[0] < p.duration;
      assert Memory.Ordered(events) && !Safe(p, granted);
    }
  }

  // ---- When the limiters agree ----

  /** Both limiters give a request at `at` the same answer. */
  ghost predicate SameAnswer(cfg: Memory.Config, events: seq<Memory.Event>, key: string, at: int) {
    Answer(cfg, EntriesAfter(cfg, events), key, at)
    == if Memory.Allowed(cfg, Memory.StoreAfter(cfg, events), key, at) then Granted else Refused
  }

  /** The milliseconds within a second at which the requests of a key arrive are among `phases`. */
  ghost predicate PhasesIn(events: seq<Memory.Event>, key: string, phases: set<int>) {
    forall i :: 0 <= i < |events| && Memory.Concerns(events[i], key) ==> events[i].at % 1000 in phases
  }

  ghost predicate AgreeOn(cfg: Memory.Config, key: string, phases: set<int>) {
    forall events, at :: Memory.Ordered(events) && Memory.After(events, at) && PhasesIn(events, key, phases) && at % 1000 in phases ==>
      SameAnswer(cfg, events, key, at)
  }

  ghost predicate AtMostOne(phases: set<int>) {
    forall a, b :: a in phases && b in phases ==> a == b
  }

  /** Requests that fill a window `b` milliseconds into a second, and the time when in-memory seconds have passed. */
  function Straddle(p: Policy, key: string, a: int, b: int): (seq<Memory.Event>, int)
    requires p.max >= 1
  {
    (Memory.Burst(key, b, p.max), p.duration * 1000 + a)
  }

  lemma StraddleOrdered(p: Policy, key: string, a: int, b: int)
    requires p.max >= 1 && 0 <= a < b < 1000 && 1 <= p.duration
    ensures var (events, at) := Straddle(p, key, a, b);
            && Memory.Ordered(events) && Memory.After(events, at)
            && (forall i :: 0 <= i < |events| ==> events[i].at % 1000 == b) && at % 1000 == a
  {
  }

  lemma StraddleAllowed(cfg: Memory.Config, key: string, a: int, b: int)
    requires 0 <= a < b < 1000
    requires cfg.policy(key).max >= 1 && 1 <= cfg.policy(key).duration <= cfg.expiration
    ensures var (events, at) := Straddle(cfg.policy(key), key, a, b);
            Memory.Allowed(cfg, Memory.StoreAfter(cfg, events), key, at)
  {
    hide Memory.Allowed, Memory.StoreAfter, Memory.Grants, Greedy;
    var p := cfg.policy(key);
    var (events, at) := Straddle(p, key, a, b);
    StraddleOrdered(p, key, a, b);
    Memory.BurstGranted(cfg, key, b, p.max);
    Memory.GrantsAreGreedy(cfg, events, key, at);
    Memory.AnswersAreAdmissions(cfg, events, key, at);
    assert Memory.Unix(b) == 0 && Memory.Unix(at) == p.duration;
  }

  lemma StraddleRefused(cfg: Memory.Config, key: string, a: int, b: int)
    requires 0 <= a < b < 1000
    requires cfg.policy(key).max >= 1 && 1 <= cfg.policy(key).duration <= cfg.expiration
    ensures var (events, at) := Straddle(cfg.policy(key), key, a, b);
            Answer(cfg, EntriesAfter(cfg, events), key, at) == Refused
  {
    hide Answer, EntriesAfter, Grants, Greedy;
    var p := cfg.policy(key);
    var (events, at) := Straddle(p, key, a, b);
    StraddleOrdered(p, key, a, b);
    BurstGranted(cfg, key, b, p.max);
    GrantsAreGreedy(cfg, events, key, at);
    AnswersAreAdmissions(cfg, events, key, at);
  }

  /** Out of phase, memory grants a request that Redis refuses: seconds have passed, but not all their milliseconds. */
  lemma LimitersDifferOutOfPhase(cfg: Memory.Config, key: string, a: int, b: int)
    requires 0 <= a < b < 1000
    requires cfg.policy(key).max >= 1 && 1 <= cfg.policy(key).duration <= cfg.expiration
    ensures var (events, at) := Straddle(cfg.policy(key), key, a, b);
            && Memory.Ordered(events) && Memory.After(events, at)
            && Memory.Allowed(cfg, Memory.StoreAfter(cfg, events), key, at)
            && Answer(cfg, EntriesAfter(cfg, events), key, at) == Refused
  {
    hide Answer, EntriesAfter, Memory.Allowed, Memory.StoreAfter, Straddle;
    StraddleOrdered(cfg.policy(key), key, a, b);
    StraddleAllowed(cfg, key, a, b);
    StraddleRefused(cfg, key, a, b);
  }

  /** A policy without a duration grants everything, in both limiters. */
  lemma NoDurationAgrees(cfg: Memory.Config, events: seq<Memory.Event>, key: string, at: int)
    requires Memory.Ordered(events) && Memory.After(events, at)
    requires cfg.policy(key).max >= 1 && 0 < cfg.expiration && cfg.policy(key).duration <= 0
    ensures SameAnswer(cfg, events, key, at)
    ensures Answer(cfg, EntriesAfter(cfg, events), key, at) == Granted
  {
    AnswersAreAdmissions(cfg, events, key, at);
    Memory.AnswersAreAdmissions(cfg, events, key, at);
    GrantsAreGreedy(cfg, events, key, at);
    Memory.GrantsAreGreedy(cfg, events, key, at);
    Memory.GrantsShape(cfg, events, key, at);
  }

  /**
    Both limiters answer alike on all traces whose requests fall on some phases exactly when that is
    at most one phase, or when there is no duration to wait for.
   */
  lemma AgreeIffOnePhase(cfg: Memory.Config, key: string, phases: set<int>)
    requires forall phase :: phase in phases ==> 0 <= phase < 1000
    requires cfg.policy(key).max >= 1 && 0 < cfg.expiration && cfg.policy(key).duration <= cfg.expiration
    ensures AgreeOn(cfg, key, phases) <==> cfg.policy(key).duration <= 0 || AtMostOne(phases)
  {
    hide Answer, EntriesAfter;
    if cfg.policy(key).duration <= 0 {
      forall events, at | Memory.Ordered(events) && Memory.After(events, at) ensures SameAnswer(cfg, events, key, at) {
        NoDurationAgrees(cfg, events, key, at);
      }
    } else if AtMostOne(phases) {
      forall events, at | Memory.Ordered(events) && Memory.After(events, at) && PhasesIn(events, key, phases) && at % 1000 in phases
        ensures SameAnswer(cfg, events, key, at)
      {
        LimitersAgree(cfg, events, key, at, at % 1000);
      }
    } else {
      var a, b :| a in phases && b in phases && a != b;
      DifferOnTwoPhases(cfg, key, phases, if a < b then a else b, if a < b then b else a);
    }
  }

  lemma DifferOnTwoPhases(cfg: Memory.Config, key: string, phases: set<int>, a: int, b: int)
    requires 0 <= a < b < 1000 && a in phases && b in phases
    requires cfg.policy(key).max >= 1 && 1 <= cfg.policy(key).duration <= cfg.expiration
    ensures !AgreeOn(cfg, key, phases)
  {
    hide Answer, EntriesAfter, Memory.Allowed, Memory.StoreAfter, Straddle;
    var (events, at) := Straddle(cfg.policy(key), key, a, b);
    StraddleOrdered(cfg.policy(key), key, a, b);
    LimitersDifferOutOfPhase(cfg, key, a, b);
    assert PhasesIn(events, key, phases);
    assert !SameAnswer(cfg, events, key, at);
  }
}
