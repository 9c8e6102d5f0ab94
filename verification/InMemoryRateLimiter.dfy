/**
  The in-memory rate limiter: a bounded queue of grant times (whole Unix seconds) for each key,
  and a background cleaner that forgets a key once its last grant is older than the expiration.
 */
module InMemoryRateLimiter {
  import opened Collections
  import opened SlidingWindow

  type Store = map<string, seq<int>>

  ghost predicate NoEmptyQueue(store: Store) {
    forall key :: key in store ==> store[key] != []
  }

  /** The effect and the answer of one request. */
  function Requested(store: Store, key: string, max: int, duration: int, now: int): (Store, bool)
    requires NoEmptyQueue(store)
  {
    if key !in store then (store[key := [now]], true)
    else
      var queue := store[key];
      if |queue| < max then (store[key := queue + [now]], true)
      else if now - queue[0] >= duration then (store[key := queue[1..] + [now]], true)
      else (store, false)
  }

  predicate Expired(queue: seq<int>, expiration: int, now: int) {
    |queue| == 0 || now - queue[|queue| - 1] > expiration
  }

  /** The effect of one pass of the cleaner. */
  function Cleaned(store: Store, expiration: int, now: int): Store {
    map key | key in store && !Expired(store[key], expiration, now) :: store[key]
  }

  class Limiter {
    var store: Store
    var expirationDuration: int
    /** Whether there is a store at all, and whether a cleaner was started. */
    var initialized: bool
    var cleaning: bool

    ghost predicate Valid()
      reads this
    {
      initialized && NoEmptyQueue(store)
    }

    constructor ()
      ensures !initialized && !cleaning
    {
      store, expirationDuration, initialized, cleaning := map[], 0, false, false;
    }

    /** Only the first call takes effect, and without an expiration there is no cleaner. */
    method Init(expirationDuration: int)
      requires initialized ==> Valid()
      modifies this
      ensures Valid()
      ensures if old(initialized) then unchanged(this)
              else store == map[] && this.expirationDuration == expirationDuration && (cleaning <==> expirationDuration > 0)
    {
      if !initialized {
        store := map[];
        initialized := true;
        this.expirationDuration := expirationDuration;
        cleaning := expirationDuration > 0;
      }
    }

    method Request(key: string, maxRequestNum: int, duration: int, now: int) returns (granted: bool)
      requires Valid()
      modifies this`store
      ensures Valid()
      ensures (store, granted) == Requested(old(store), key, maxRequestNum, duration, now)
    {
      if key in store {
        var queue := store[key];
        if |queue| < maxRequestNum {
          queue := queue + [now];
          store := store[key := queue];
          return true;
        } else if now - queue[0] >= duration {
          queue := queue[1..];
          queue := queue + [now];
          store := store[key := queue];
          return true;
        } else {
          return false;
        }
      }
      store := store[key := []];
      store := store[key := store[key] + [now]];
      assert store[key] == [now];
      assert store == old(store)[key := [now]];
      return true;
    }

    /** One pass of the cleaner. */
    method ClearExpiredItems(now: int)
      requires Valid() && cleaning
      modifies this`store
      ensures Valid()
      ensures store == Cleaned(old(store), expirationDuration, now)
    {
      var keys := store.Keys;
      while keys != {}
        invariant keys <= store.Keys <= old(store).Keys
        invariant forall key :: key in store ==> store[key] == old(store)[key]
        invariant forall key :: key in old(store) && key !in keys ==>
                    (key in store <==> !Expired(old(store)[key], expirationDuration, now))
        decreases keys
      {
        SomeString(keys);
        var key :| key in keys;
        var queue := store[key];
        var size := |queue|;
        if size == 0 || now - queue[size - 1] > expirationDuration {
          store := store - {key};
        }
        keys := keys - {key};
      }
    }
  }

  // ---- Histories ----

  /** Times are in milliseconds since the epoch. */
  datatype Event =
    | Request(key: string, at: int)
    | Clean(at: int)

  /** One expiration for the whole store; a policy, in seconds, for each key. */
  datatype Config = Config(policy: string -> Policy, expiration: int)

  ghost predicate Ordered(events: seq<Event>) {
    forall i, j :: 0 <= i < j < |events| ==> events[i].at <= events[j].at
  }

  function Unix(milliseconds: int): int {
    milliseconds / 1000
  }

  function Step(cfg: Config, store: Store, event: Event): (next: Store)
    requires NoEmptyQueue(store)
    ensures NoEmptyQueue(next)
  {
    match event
    case Request(key, at) => Requested(store, key, cfg.policy(key).max, cfg.policy(key).duration, Unix(at)).0
    case Clean(at) => Cleaned(store, cfg.expiration, Unix(at))
  }

  /** The answer to a request for `key` that finds the given store. */
  predicate Allowed(cfg: Config, store: Store, key: string, at: int)
    requires NoEmptyQueue(store)
  {
    Requested(store, key, cfg.policy(key).max, cfg.policy(key).duration, Unix(at)).1
  }

  /** The store after a history that starts empty. */
  function StoreAfter(cfg: Config, events: seq<Event>): (store: Store)
    ensures NoEmptyQueue(store)
  {
    if events == [] then map[]
    else Step(cfg, StoreAfter(cfg, events[..|events| - 1]), events[|events| - 1])
  }

  predicate Concerns(event: Event, key: string) {
    event.Request? && event.key == key
  }

  /** The request times of a key, in seconds. */
  function Arrivals(events: seq<Event>, key: string): seq<int> {
    if events == [] then []
    else
      var before, last := Arrivals(events[..|events| - 1], key), events[|events| - 1];
      if Concerns(last, key) then before + [Unix(last.at)] else before
  }

  /** The times, in seconds, at which the limiter granted a request of a key. */
  function Grants(cfg: Config, events: seq<Event>, key: string): seq<int> {
    if events == [] then []
    else
      var before, last := events[..|events| - 1], events[|events| - 1];
      var granted := Grants(cfg, before, key);
      if Concerns(last, key) && Allowed(cfg, StoreAfter(cfg, before), key, last.at)
      then granted + [Unix(last.at)] else granted
  }

  function Queue(store: Store, key: string): seq<int> {
    if key in store then store[key] else []
  }

  lemma {:induction false} ArrivalsSorted(events: seq<Event>, key: string)
    requires Ordered(events)
    ensures Sorted(Arrivals(events, key))
    ensures forall i :: 0 <= i < |Arrivals(events, key)| ==>
              Arrivals(events, key)[i] <= Unix(events[|events| - 1].at)
    ensures |Arrivals(events, key)| <= |events|
  {
    if events != [] {
      var n := |events| - 1;
      ArrivalsSorted(events[..n], key);
      assert n >= 1 ==> events[n - 1].at <= events[n].at;
    }
  }

  /** One request keeps the queue of its own key a sufficient memory of the full history. */
  lemma RequestRemembers(p: Policy, store: Store, key: string, granted: seq<int>, earlier: int, now: int)
    requires NoEmptyQueue(store) && p.max >= 1 && earlier <= now
    requires Remembers(p, Queue(store, key), granted, earlier)
    ensures Requested(store, key, p.max, p.duration, now).1 <==> Admits(p, granted, now)
    ensures Remembers(p, Queue(Requested(store, key, p.max, p.duration, now).0, key),
                      if Admits(p, granted, now) then granted + [now] else granted, now)
  {
    RemembersDecides(p, Queue(store, key), granted, earlier, now);
    assert [] + [now] == [now];
  }

  /** A cleaner pass only drops grants that can no longer matter. */
  lemma CleanRemembers(p: Policy, expiration: int, store: Store, key: string, granted: seq<int>, earlier: int, now: int)
    requires NoEmptyQueue(store) && p.max >= 1 && earlier <= now && p.duration <= expiration + 1
    requires Sorted(granted) && Remembers(p, Queue(store, key), granted, earlier)
    ensures Remembers(p, Queue(Cleaned(store, expiration, now), key), granted, now)
  {
    RemembersDecides(p, Queue(store, key), granted, earlier, now);
    if key in store && key !in Cleaned(store, expiration, now) {
      var last := |granted| - 1;
      assert granted[last] == store[key][|store[key]| - 1];
      assert forall i :: 0 <= i <= last ==> granted[i] <= granted[last];
      assert Queue(Cleaned(store, expiration, now), key) == granted[|granted|..];
    }
  }

  lemma StepRemembers(cfg: Config, store: Store, event: Event, key: string, granted: seq<int>, earlier: int)
    requires NoEmptyQueue(store) && cfg.policy(key).max >= 1 && cfg.policy(key).duration <= cfg.expiration + 1
    requires earlier <= Unix(event.at) && Sorted(granted)
    requires Remembers(cfg.policy(key), Queue(store, key), granted, earlier)
    ensures Allowed(cfg, store, key, event.at) <==> Admits(cfg.policy(key), granted, Unix(event.at))
    ensures Remembers(cfg.policy(key), Queue(Step(cfg, store, event), key),
                      if Concerns(event, key) && Admits(cfg.policy(key), granted, Unix(event.at))
                      then granted + [Unix(event.at)] else granted, Unix(event.at))
  {
    hide Admits, Remembers, Cleaned;
    var p, now := cfg.policy(key), Unix(event.at);
    RequestRemembers(p, store, key, granted, earlier, now);
    if event.Clean? {
      CleanRemembers(p, cfg.expiration, store, key, granted, earlier, now);
    } else if event.key != key {
      RemembersDecides(p, Queue(store, key), granted, earlier, now);
    }
  }

  /** When the store's last event happened, or any time at all before the first. */
  ghost predicate After(events: seq<Event>, now: int) {
    events == [] || events[|events| - 1].at <= now
  }

  /**
    Forgetting is invisible.  Whatever requests of other keys and cleaner passes come in between,
    a key's grants are those of the limiter that never forgets.
   */
  lemma {:induction false} GrantsAreGreedy(cfg: Config, events: seq<Event>, key: string, now: int)
    requires Ordered(events) && After(events, now)
    requires cfg.policy(key).max >= 1 && cfg.policy(key).duration <= cfg.expiration + 1
    ensures Grants(cfg, events, key) == Greedy(cfg.policy(key), Arrivals(events, key))
    ensures Remembers(cfg.policy(key), Queue(StoreAfter(cfg, events), key), Grants(cfg, events, key), Unix(now))
  {
    if events != [] {
      hide Admits, Requested, Cleaned, Step, Allowed, Remembers, Spaced, Sorted, Greedy;
      var p, n := cfg.policy(key), |events| - 1;
      var before, last := events[..n], events[n];
      GrantsAreGreedy(cfg, before, key, last.at);
      assert Sorted(Grants(cfg, before, key)) by {
        ArrivalsSorted(before, key);
        GreedyShape(p, Arrivals(before, key));
      }
      StepRemembers(cfg, StoreAfter(cfg, before), last, key, Grants(cfg, before, key), Unix(last.at));
      RemembersDecides(p, Queue(StoreAfter(cfg, events), key), Grants(cfg, events, key), Unix(last.at), Unix(now));
      GreedyNext(p, Arrivals(before, key), Unix(last.at));
    }
  }

  /** Every answer is the one the full history would give. */
  lemma AnswersAreAdmissions(cfg: Config, events: seq<Event>, key: string, at: int)
    requires Ordered(events) && After(events, at)
    requires cfg.policy(key).max >= 1 && cfg.policy(key).duration <= cfg.expiration + 1
    ensures Allowed(cfg, StoreAfter(cfg, events), key, at) <==>
            Admits(cfg.policy(key), Greedy(cfg.policy(key), Arrivals(events, key)), Unix(at))
  {
    var p := cfg.policy(key);
    GrantsAreGreedy(cfg, events, key, at);
    RequestRemembers(p, StoreAfter(cfg, events), key, Grants(cfg, events, key), Unix(at), Unix(at));
  }

  lemma GrantsShape(cfg: Config, events: seq<Event>, key: string, now: int)
    requires Ordered(events) && After(events, now)
    requires cfg.policy(key).max >= 1 && cfg.policy(key).duration <= cfg.expiration + 1
    ensures Sorted(Grants(cfg, events, key)) && Spaced(cfg.policy(key), Grants(cfg, events, key))
    ensures forall i :: 0 <= i < |Grants(cfg, events, key)| ==> Grants(cfg, events, key)[i] <= Unix(now)
  {
    var arrivals := Arrivals(events, key);
    GrantsAreGreedy(cfg, events, key, now);
    ArrivalsSorted(events, key);
    GreedyShape(cfg.policy(key), arrivals);
    if arrivals != [] {
      assert arrivals[|arrivals| - 1] <= Unix(now);
    }
  }

  /**
    A request is refused exactly when the `duration` seconds that end with it already hold `max`
    grants of its key.
   */
  lemma RefusedIffWindowFull(cfg: Config, events: seq<Event>, key: string, at: int)
    requires Ordered(events) && After(events, at)
    requires cfg.policy(key).max >= 1 && cfg.policy(key).duration <= cfg.expiration + 1
    ensures !Allowed(cfg, StoreAfter(cfg, events), key, at) <==>
            Load(cfg.policy(key), Grants(cfg, events, key), Unix(at) - cfg.policy(key).duration + 1)
              == cfg.policy(key).max
  {
    var p, granted, now := cfg.policy(key), Grants(cfg, events, key), Unix(at);
    assert Allowed(cfg, StoreAfter(cfg, events), key, at) <==> Admits(p, granted, now) by {
      AnswersAreAdmissions(cfg, events, key, at);
      GrantsAreGreedy(cfg, events, key, at);
    }
    assert !Admits(p, granted, now) <==> Load(p, granted, now - p.duration + 1) == p.max by {
      GrantsShape(cfg, events, key, at);
      RefusesIffWindowFull(p, granted, now);
    }
  }

  /** No schedule that respects every window has its k-th grant before this limiter's. */
  lemma GrantsOptimal(cfg: Config, events: seq<Event>, key: string, choice: seq<bool>)
    requires Ordered(events) && |choice| == |Arrivals(events, key)|
    requires cfg.policy(key).max >= 1 && cfg.policy(key).duration <= cfg.expiration + 1
    requires Safe(cfg.policy(key), Chosen(Arrivals(events, key), choice))
    ensures Dominates(Grants(cfg, events, key), Chosen(Arrivals(events, key), choice))
  {
    GrantsAreGreedy(cfg, events, key, if events == [] then 0 else events[|events| - 1].at);
    ArrivalsSorted(events, key);
    GreedyOptimal(cfg.policy(key), Arrivals(events, key), choice);
  }

  lemma GrantsSafe(cfg: Config, events: seq<Event>, key: string)
    requires Ordered(events)
    requires cfg.policy(key).max >= 1 && cfg.policy(key).duration <= cfg.expiration + 1
    ensures Safe(cfg.policy(key), Grants(cfg, events, key))
  {
    GrantsShape(cfg, events, key, if events == [] then 0 else events[|events| - 1].at);
    SpacedIffSafe(cfg.policy(key), Grants(cfg, events, key));
  }

  // ---- Why the expiration must not be shorter than the duration ----

  function Burst(key: string, at: int, n: nat): seq<Event> {
    seq(n, _ => Request(key, at))
  }

  lemma {:induction false} BurstGranted(cfg: Config, key: string, at: int, n: nat)
    requires n <= cfg.policy(key).max
    ensures var burst := Burst(key, at, n);
            Queue(StoreAfter(cfg, burst), key) == Grants(cfg, burst, key) == seq(n, _ => Unix(at))
    ensures StoreAfter(cfg, Burst(key, at, n)).Keys <= {key}
  {
    if n != 0 {
      assert Burst(key, at, n)[..n - 1] == Burst(key, at, n - 1);
      BurstGranted(cfg, key, at, n - 1);
      assert seq(n, _ => Unix(at)) == seq(n - 1, _ => Unix(at)) + [Unix(at)];
    }
  }

  /** A full window, then the earliest cleaner pass that forgets it, then one request more. */
  function EarlyClean(cfg: Config, key: string): seq<Event>
    requires cfg.policy(key).max >= 1
  {
    var late := (cfg.expiration + 1) * 1000;
    Burst(key, 0, cfg.policy(key).max) + [Clean(late)] + [Request(key, late)]
  }

  lemma EarlyCleanGrants(cfg: Config, key: string)
    requires cfg.policy(key).max >= 1 && cfg.expiration > 0
    ensures Ordered(EarlyClean(cfg, key))
    ensures Grants(cfg, EarlyClean(cfg, key), key) == seq(cfg.policy(key).max, _ => 0) + [cfg.expiration + 1]
  {
    var n, late := cfg.policy(key).max, (cfg.expiration + 1) * 1000;
    var burst, events := Burst(key, 0, n), EarlyClean(cfg, key);
    BurstGranted(cfg, key, 0, n);
    assert seq(n, _ => Unix(0)) == seq(n, _ => 0);
    assert events[..n + 1] == burst + [Clean(late)];
    assert (burst + [Clean(late)])[..n] == burst;
    assert Unix(late) == cfg.expiration + 1;
    assert key !in StoreAfter(cfg, burst + [Clean(late)]);
  }

  /** The limiter is safe on every history exactly when the duration fits the expiration. */
  lemma SafeIffDurationFits(cfg: Config, key: string)
    requires cfg.policy(key).max >= 1 && cfg.expiration > 0
    ensures (forall events :: Ordered(events) ==> Safe(cfg.policy(key), Grants(cfg, events, key)))
            <==> cfg.policy(key).duration <= cfg.expiration + 1
  {
    var p := cfg.policy(key);
    if p.duration <= cfg.expiration + 1 {
      forall events | Ordered(events) ensures Safe(p, Grants(cfg, events, key)) {
        GrantsSafe(cfg, events, key);
      }
    } else {
      var events := EarlyClean(cfg, key);
      EarlyCleanGrants(cfg, key);
      var granted := Grants(cfg, events, key);
      SpacedIffSafe(p, granted);
      assert granted[0 + p.max] - granted[0] < p.duration;
      assert Ordered(events) && !Safe(p, granted);
    }
  }
}
