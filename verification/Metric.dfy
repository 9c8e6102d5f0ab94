/** The windows of recent outcomes that disable channels with too many failures. */
module Metric {

  datatype Config = Config(queueSize: nat, successRateThreshold: real)

  // ---- Step by step ----

  function Window(store: map<int, seq<bool>>, channel: int): seq<bool> {
    if channel in store then store[channel] else []
  }

  function Pushed(window: seq<bool>, size: nat, success: bool): (next: seq<bool>)
    ensures next != []
  {
    (if |window| > size then window[1..] else window) + [success]
  }

  function Successes(window: seq<bool>): nat {
    if window == [] then 0 else Successes(window[..|window| - 1]) + if window[|window| - 1] then 1 else 0
  }

  function Rate(window: seq<bool>): real
    requires window != []
  {
    Successes(window) as real / |window| as real
  }

  class Metrics {
    var store: map<int, seq<bool>>
    const config: Config

    constructor (config: Config)
      ensures this.config == config && store == map[]
    {
      this.config := config;
      store := map[];
    }

    method ConsumeSuccess(channelId: int)
      modifies this
      ensures store == After(config, old(store), Outcome(channelId, true))
      ensures !Disables(config, old(store), Outcome(channelId, true))
    {
      var window := Window(store, channelId);
      if |window| > config.queueSize {
        window := window[1..];
      }
      store := store[channelId := window + [true]];
    }

    method ConsumeFail(channelId: int) returns (disable: bool, successRate: real)
      modifies this
      ensures store == After(config, old(store), Outcome(channelId, false))
      ensures disable <==> Disables(config, old(store), Outcome(channelId, false))
      ensures var window := Pushed(Window(old(store), channelId), config.queueSize, false);
              && successRate == Rate(window)
              && (disable <==> |window| >= config.queueSize && successRate < config.successRateThreshold)
    {
      var window := Window(store, channelId);
      if |window| > config.queueSize {
        window := window[1..];
      }
      window := window + [false];
      store := store[channelId := window];
      var successCount := 0;
      for i := 0 to |window|
        invariant successCount == Successes(window[..i])
      {
        assert window[..i + 1][..i] == window[..i];
        if window[i] {
          successCount := successCount + 1;
        }
      }
      assert window[..|window|] == window;
      successRate := successCount as real / |window| as real;
      assert successRate == Rate(window);
      if |window| < config.queueSize {
        return false, successRate;
      }
      if successRate < config.successRateThreshold {
        store := store[channelId := []];
        return true, successRate;
      }
      return false, successRate;
    }
  }

  datatype Outcome = Outcome(channel: int, success: bool)

  /** Whether an outcome disables its channel. */
  predicate Disables(config: Config, store: map<int, seq<bool>>, o: Outcome) {
    var window := Pushed(Window(store, o.channel), config.queueSize, o.success);
    !o.success && |window| >= config.queueSize && Rate(window) < config.successRateThreshold
  }

  function After(config: Config, store: map<int, seq<bool>>, o: Outcome): map<int, seq<bool>> {
    store[o.channel := if Disables(config, store, o) then [] else Pushed(Window(store, o.channel), config.queueSize, o.success)]
  }

  function AfterAll(config: Config, outcomes: seq<Outcome>): map<int, seq<bool>> {
    if outcomes == [] then map[]
    else After(config, AfterAll(config, outcomes[..|outcomes| - 1]), outcomes[|outcomes| - 1])
  }

  // ---- What it should do ----

  function Latest(history: seq<bool>, n: nat): seq<bool> {
    if |history| <= n then history else history[|history| - n..]
  }

  function Of(outcomes: seq<Outcome>, channel: int): seq<bool> {
    if outcomes == [] then []
    else
      var before := Of(outcomes[..|outcomes| - 1], channel);
      if outcomes[|outcomes| - 1].channel == channel then before + [outcomes[|outcomes| - 1].success] else before
  }

  /** The places of the successes. */
  function Wins(history: seq<bool>): set<nat> {
    set i: nat | i < |history| && history[i]
  }

  /** The successes are a smaller share than the threshold. */
  predicate TooFewWins(config: Config, history: seq<bool>) {
    |Wins(history)| as real < config.successRateThreshold * |history| as real
  }

  /** That is, those that succeeded are fewer than the threshold times all of them. */
  lemma TooFewWinsIff(config: Config, history: seq<bool>)
    ensures TooFewWins(config, history) <==>
            |set i: nat | i < |history| && history[i] == true| as real < config.successRateThreshold * |history| as real
  {
    assert Wins(history) == set i: nat | i < |history| && history[i] == true;
  }

  lemma {:induction false} SuccessesAreWins(window: seq<bool>)
    ensures Successes(window) == |Wins(window)|
  {
    if window == [] {
      assert Wins(window) == {};
    } else {
      var n := |window| - 1;
      SuccessesAreWins(window[..n]);
      assert Wins(window) == if window[n] then Wins(window[..n]) + {n} else Wins(window[..n]);
    }
  }

  lemma RateIsShare(window: seq<bool>)
    requires window != []
    ensures Rate(window) * |window| as real == |Wins(window)| as real
  {
    SuccessesAreWins(window);
  }

  /** A rate is a share of successes. */
  lemma RateBelowIff(config: Config, window: seq<bool>)
    requires window != []
    ensures Rate(window) < config.successRateThreshold <==> TooFewWins(config, window)
  {
    hide Rate, Wins;
    RateIsShare(window);
    ShareBelowIff(Rate(window), |window| as real, config.successRateThreshold);
  }

  lemma ShareBelowIff(rate: real, size: real, threshold: real)
    requires size > 0.0
    ensures rate < threshold <==> rate * size < threshold * size
  {
  }

  /** A failure that makes too many of the latest outcomes failures. */
  predicate Trips(config: Config, history: seq<bool>) {
    var latest := Latest(history, config.queueSize + 1);
    && history != [] && !history[|history| - 1] && |latest| >= config.queueSize
    && TooFewWins(config, latest)
  }

  /** The history of a channel since it last tripped. */
  function SinceTrip(config: Config, history: seq<bool>): seq<bool> {
    if history == [] then []
    else
      var since := SinceTrip(config, history[..|history| - 1]) + [history[|history| - 1]];
      if Trips(config, since) then [] else since
  }

  lemma LatestPushed(history: seq<bool>, size: nat, success: bool)
    ensures Pushed(Latest(history, size + 1), size, success) == Latest(history + [success], size + 1)
  {
  }

  /** One outcome of the channel itself. */
  lemma OwnOutcome(config: Config, store: map<int, seq<bool>>, o: Outcome, since: seq<bool>)
    requires Window(store, o.channel) == Latest(since, config.queueSize + 1)
    ensures var all := since + [o.success];
            && (Disables(config, store, o) <==> Trips(config, all))
            && Window(After(config, store, o), o.channel)
               == if Trips(config, all) then [] else Latest(all, config.queueSize + 1)
  {
    var latest := Latest(since + [o.success], config.queueSize + 1);
    hide Rate, Pushed, Latest, TooFewWins;
    RateBelowIff(config, latest);
    LatestPushed(since, config.queueSize, o.success);
  }

  lemma SinceTripNext(config: Config, history: seq<bool>, success: bool)
    ensures var since := SinceTrip(config, history) + [success];
            SinceTrip(config, history + [success]) == if Trips(config, since) then [] else since
  {
    hide Trips;
    assert (history + [success])[..|history|] == history;
  }

  /** The window of a channel is its latest outcomes since it was last disabled, whatever the others do. */
  lemma {:induction false} WindowIsLatest(config: Config, outcomes: seq<Outcome>, channel: int)
    ensures Window(AfterAll(config, outcomes), channel)
            == Latest(SinceTrip(config, Of(outcomes, channel)), config.queueSize + 1)
  {
    hide SinceTrip, Trips, Disables, Pushed;
    if outcomes == [] {
      NoTrip(config);
    } else {
      var (before, o) := (outcomes[..|outcomes| - 1], outcomes[|outcomes| - 1]);
      WindowIsLatest(config, before, channel);
      if o.channel == channel {
        var history := Of(before, channel);
        OwnOutcome(config, AfterAll(config, before), o, SinceTrip(config, history));
        SinceTripNext(config, history, o.success);
      }
    }
  }

  lemma NoTrip(config: Config)
    ensures SinceTrip(config, []) == []
  {
  }

  lemma TripsIff(config: Config, before: seq<bool>, success: bool)
    ensures var history := before + [success];
            var latest := if |history| <= config.queueSize + 1 then history else history[|history| - config.queueSize - 1..];
            Trips(config, history) <==> !success && |latest| >= config.queueSize && TooFewWins(config, latest)
  {
    hide TooFewWins;
  }

  /** An outcome disables its channel exactly when the history of that channel trips. */
  lemma DisablesIffTrips(config: Config, before: seq<Outcome>, o: Outcome)
    ensures var history := SinceTrip(config, Of(before, o.channel)) + [o.success];
            var latest := if |history| <= config.queueSize + 1 then history else history[|history| - config.queueSize - 1..];
            && (Disables(config, AfterAll(config, before), o) <==> Trips(config, history))
            && (Disables(config, AfterAll(config, before), o) <==>
                  !o.success && |latest| >= config.queueSize && TooFewWins(config, latest))
  {
    hide SinceTrip, Of, AfterAll, Disables, Trips, TooFewWins;
    TripsIff(config, SinceTrip(config, Of(before, o.channel)), o.success);
    WindowIsLatest(config, before, o.channel);
    OwnOutcome(config, AfterAll(config, before), o, SinceTrip(config, Of(before, o.channel)));
  }

  lemma {:induction false} SinceTripBounded(config: Config, a: seq<bool>, b: seq<bool>)
    requires SinceTrip(config, a) == []
    ensures |SinceTrip(config, a + b)| <= |b|
  {
    if b == [] {
      assert a + b == a;
    } else {
      var (n, history) := (|b| - 1, a + b);
      SinceTripBounded(config, a, b[..n]);
      GrowsByOne(config, history);
      assert history[..|history| - 1] == a + b[..n];
      hide SinceTrip;
    }
  }

  lemma GrowsByOne(config: Config, history: seq<bool>)
    requires history != []
    ensures |SinceTrip(config, history)| <= |SinceTrip(config, history[..|history| - 1])| + 1
  {
  }

  lemma {:induction false} OfConcat(a: seq<Outcome>, b: seq<Outcome>, channel: int)
    ensures Of(a + b, channel) == Of(a, channel) + Of(b, channel)
  {
    if b == [] {
      assert a + b == a;
    } else {
      var n := |b| - 1;
      assert (a + b)[..|a| + n] == a + b[..n];
      OfConcat(a, b[..n], channel);
    }
  }

  /** A channel that is disabled twice has at least as many outcomes after the first time as the queue is long. */
  lemma DisablesApart(config: Config, before: seq<Outcome>, first: Outcome, between: seq<Outcome>, second: Outcome)
    requires first.channel == second.channel
    requires Disables(config, AfterAll(config, before), first)
    requires Disables(config, AfterAll(config, before + [first] + between), second)
    ensures |Of(between + [second], first.channel)| >= config.queueSize
  {
    var c := first.channel;
    var history := Of(before, c);
    DisablesIffTrips(config, before, first);
    DisablesIffTrips(config, before + [first] + between, second);
    OfConcat(before, [first], c);
    OfConcat(before + [first], between, c);
    OfConcat(between, [second], c);
    assert Of([first], c) == [first.success] && Of([second], c) == [second.success];
    assert (history + [first.success])[..|history|] == history;
    SinceTripBounded(config, history + [first.success], Of(between, c));
  }
}
