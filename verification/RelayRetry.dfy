/**
  Relaying a request with retries: after a failed attempt another channel may be tried, and
  every attempt takes its own hold.
 */
module RelayRetry {
  import opened Billing
  import opened Database
  import Pricing
  import opened Quota
  import opened Wrappers

  datatype ProxyExit = NoProxyAdaptor | ProxyUnsent | ProxyFailed | Proxied

  /**
    How an attempt ends upstream.  An audio or image answer that is to be paid for is settled even
    when it cannot be delivered to the client, which then gets an error.  Proxied requests are free.
   */
  datatype Exit =
    | Text(text: TextExit)
    | Audio(audio: AudioExit, delivered: bool)
    | Image(image: ImageExit, delivered: bool)
    | Proxy(proxy: ProxyExit)

  /**
    What the world has ready for one attempt.  A request that is not valid is turned down before
    anything else; `estimate` is the price of an image; `statusCode` comes with errors that are not
    the program's own.
   */
  datatype Attempt = Attempt(valid: bool, ratio: real, completionRatio: real, estimate: nat, exit: Exit, statusCode: nat)

  datatype Tried = Tried(meta: Meta, text: bool, outcome: Outcome, failed: bool, statusCode: nat)

  /** The hold that an attempt is given; images and proxied requests hold nothing. */
  function HoldFor(db: Db, meta: Meta, attempt: Attempt): Option<int> {
    match attempt.exit
    case Text(_) => Hold(db, meta, attempt.estimate)
    case Audio(_, _) => Hold(db, meta, attempt.estimate)
    case Image(_, _) => if Value(db.userQuota, meta.userId) - attempt.estimate < 0 then None else Some(0)
    case Proxy(_) => Some(0)
  }

  function ExitOutcome(meta: Meta, hold: int, attempt: Attempt): Outcome {
    match attempt.exit
    case Text(text) => TextOutcome(meta, hold, text)
    case Audio(Heard(quota), _) => Settled(quota)
    case Audio(Failed, _) => Refunded
    case Image(image, _) => if image == Responded(true) then Settled(attempt.estimate) else Refunded
    case Proxy(_) => Refunded
  }

  predicate ExitFails(exit: Exit) {
    match exit
    case Text(text) => !text.Answered?
    case Audio(audio, delivered) => audio.Failed? || !delivered
    case Image(image, delivered) => image.Unsent? || !delivered
    case Proxy(proxy) => !proxy.Proxied?
  }

  predicate LacksAdaptor(exit: Exit) {
    exit == Text(NoAdaptor) || exit == Proxy(NoProxyAdaptor)
  }

  /** The failures that carry the status of the upstream. */
  predicate FromUpstream(exit: Exit) {
    match exit
    case Text(text) => text.UpstreamError? || text.ResponseError?
    case Audio(audio, _) => audio.Failed?
    case Image(image, _) => !image.Unsent?
    case Proxy(proxy) => proxy.ProxyFailed?
  }

  function ExitStatus(attempt: Attempt): nat {
    if !ExitFails(attempt.exit) then 200
    else if FromUpstream(attempt.exit) then attempt.statusCode
    else if LacksAdaptor(attempt.exit) then 400
    else 500
  }

  /** What an attempt comes to, with the hold it was given, if any. */
  function TriedWith(meta: Meta, attempt: Attempt, hold: Option<int>): Tried {
    var text := attempt.exit.Text?;
    if !attempt.valid then Tried(meta, text, Rejected, true, if attempt.exit.Image? then attempt.statusCode else 400)
    else if hold.None? then Tried(meta, text, Rejected, true, 403)
    else Tried(meta, text, ExitOutcome(meta, hold.value, attempt), ExitFails(attempt.exit), ExitStatus(attempt))
  }

  predicate ShouldRetry(pinned: bool, statusCode: nat) {
    if pinned then false
    else if statusCode == 429 then true
    else if statusCode / 100 == 5 then true
    else if statusCode == 400 then false
    else if statusCode / 100 == 2 then false
    else true
  }

  lemma ShouldRetryIff(pinned: bool, statusCode: nat)
    ensures ShouldRetry(pinned, statusCode) <==> !pinned && statusCode != 400 && !(200 <= statusCode < 300)
  {
    assert 200 <= statusCode < 300 <==> statusCode / 100 == 2;
  }

  /** The channels that are picked, up to a failing pick, without those that were just tried. */
  function Different(last: int, picks: seq<Option<int>>): seq<int>
    decreases |picks|
  {
    if picks == [] || picks[0].None? then []
    else if picks[0].value == last then Different(last, picks[1..])
    else [picks[0].value] + Different(picks[0].value, picks[1..])
  }

  function ChannelsOf(tried: seq<Tried>): seq<int> {
    seq(|tried|, i requires 0 <= i < |tried| => tried[i].meta.channelId)
  }

  /** Only text requests are booked when they consumed nothing. */
  function EffectOf(db: Db, t: Tried): Db {
    if !t.text && t.outcome.Settled? then BookSome(Charge(db, t.meta.tokenId, t.outcome.price), t.meta, t.outcome.price)
    else Effect(db, t.meta, t.outcome)
  }

  /** What the attempts do to the accounts, one after the other. */
  function EffectAll(db: Db, tried: seq<Tried>): Db {
    if tried == [] then db else EffectOf(EffectAll(db, tried[..|tried| - 1]), tried[|tried| - 1])
  }

  ghost predicate SameToken(tried: seq<Tried>, tokenId: int) {
    forall t :: t in tried ==> t.meta.tokenId == tokenId
  }

  /** What an attempt comes to with a hold, which is nothing for a trusted user and its estimate otherwise. */
  ghost predicate ComesFrom(t: Tried, attempt: Attempt, hold: Option<int>) {
    && t.meta.ratio == attempt.ratio && t.meta.completionRatio == attempt.completionRatio
    && (hold.Some? ==> hold.value == 0 || hold.value == attempt.estimate)
    && t == TriedWith(t.meta, attempt, hold)
  }

  lemma HoldIsEstimateOrNothing(db: Db, meta: Meta, attempt: Attempt)
    ensures var hold := HoldFor(db, meta, attempt);
            hold.Some? ==> hold.value == 0 || hold.value == attempt.estimate
  {
  }

  method RelayHelper(store: QuotaStore, meta: Meta, attempt: Attempt) returns (tried: Tried, ghost hold: Option<int>)
    requires store.Valid() && meta.ratio == attempt.ratio && meta.completionRatio == attempt.completionRatio
    modifies store`db, store`batchUpdateStores, store`rows
    ensures !store.batchUpdateEnabled ==> store.batchUpdateStores == old(store.batchUpdateStores)
    ensures store.Valid() && tried.meta == meta
    ensures hold == HoldFor(old(store.db), meta, attempt) && ComesFrom(tried, attempt, hold)
    ensures store.rows == EffectOf(old(store.rows), tried)
  {
    hide Charge, Book, QuotaStore.Valid, Hold, Pricing.Price;
    hold := HoldFor(store.db, meta, attempt);
    HoldIsEstimateOrNothing(store.db, meta, attempt);
    var text := attempt.exit.Text?;
    if !attempt.valid {
      return Tried(meta, text, Rejected, true, if attempt.exit.Image? then attempt.statusCode else 400), hold;
    }
    var outcome;
    match attempt.exit {
      case Text(exit) => outcome := RelayTextHelper(store, meta, attempt.estimate, exit);
      case Audio(exit, _) => outcome := RelayAudioHelper(store, meta, attempt.estimate, exit);
      case Image(exit, _) => outcome := RelayImageHelper(store, meta, attempt.estimate, exit);
      case Proxy(_) => outcome := Refunded;
    }
    if outcome.Rejected? {
      return Tried(meta, text, outcome, true, 403), hold;
    }
    return Tried(meta, text, outcome, ExitFails(attempt.exit), ExitStatus(attempt)), hold;
  }

  /** Outcome, failure and status of an attempt, exit by exit. */
  lemma AttemptEnds(meta: Meta, attempt: Attempt, hold: Option<int>)
    ensures var (t, code) := (TriedWith(meta, attempt, hold), attempt.statusCode);
            if !attempt.valid then t.outcome == Rejected && t.failed && t.statusCode == if attempt.exit.Image? then code else 400
            else if hold.None? then t.outcome == Rejected && t.failed && t.statusCode == 403
            else
              match attempt.exit
              case Text(NoAdaptor) => t.outcome == Kept(hold.value) && t.failed && t.statusCode == 400
              case Text(ConvertFailed) => t.outcome == Kept(hold.value) && t.failed && t.statusCode == 500
              case Text(RequestFailed) => t.outcome == Kept(hold.value) && t.failed && t.statusCode == 500
              case Text(UpstreamError) => t.outcome == Refunded && t.failed && t.statusCode == code
              case Text(ResponseError) => t.outcome == Refunded && t.failed && t.statusCode == code
              case Text(Answered(None)) => t.outcome == Kept(hold.value) && !t.failed
              case Text(Answered(Some(usage))) =>
                && !t.failed
                && t.outcome == Settled(Pricing.Price(usage.promptTokens, usage.completionTokens, meta.completionRatio, meta.ratio))
              case Audio(Failed, _) => t.outcome == Refunded && t.failed && t.statusCode == code
              case Audio(Heard(quota), delivered) =>
                t.outcome == Settled(quota) && (t.failed <==> !delivered) && (t.failed ==> t.statusCode == 500)
              case Image(Unsent, _) => t.outcome == Refunded && t.failed && t.statusCode == 500
              case Image(Responded(charged), delivered) =>
                && t.outcome == (if charged then Settled(attempt.estimate) else Refunded)
                && (t.failed <==> !delivered) && (t.failed ==> t.statusCode == code)
              case Proxy(NoProxyAdaptor) => t.outcome == Refunded && t.failed && t.statusCode == 400
              case Proxy(ProxyUnsent) => t.outcome == Refunded && t.failed && t.statusCode == 500
              case Proxy(ProxyFailed) => t.outcome == Refunded && t.failed && t.statusCode == code
              case Proxy(Proxied) => t.outcome == Refunded && !t.failed
  {
    hide Pricing.Price;
  }

  /** The failures that send a request to another channel; an upstream that says 400 or 2xx does not. */
  predicate SentOn(attempt: Attempt, hold: Option<int>) {
    var upstreamAllows := attempt.statusCode != 400 && !(200 <= attempt.statusCode < 300);
    if !attempt.valid then attempt.exit.Image? && upstreamAllows
    else if hold.None? then true
    else
      match attempt.exit
      case Text(NoAdaptor) => false
      case Text(ConvertFailed) => true
      case Text(RequestFailed) => true
      case Text(UpstreamError) => upstreamAllows
      case Text(ResponseError) => upstreamAllows
      case Text(Answered(_)) => false
      case Audio(Failed, _) => upstreamAllows
      case Audio(Heard(_), delivered) => !delivered
      case Image(Unsent, _) => true
      case Image(Responded(_), delivered) => !delivered && upstreamAllows
      case Proxy(NoProxyAdaptor) => false
      case Proxy(ProxyUnsent) => true
      case Proxy(ProxyFailed) => upstreamAllows
      case Proxy(Proxied) => false
  }

  lemma StatusSendsOn(t: Tried, attempt: Attempt, hold: Option<int>, pinned: bool)
    requires ComesFrom(t, attempt, hold) && t.failed
    ensures ShouldRetry(pinned, t.statusCode) <==> !pinned && SentOn(attempt, hold)
  {
    hide Pricing.Price;
    ShouldRetryIff(pinned, t.statusCode);
    AttemptEnds(t.meta, attempt, hold);
  }

  /** Attempts of one request: each but the last failed, and each was sent to the next different channel. */
  ghost predicate Ran(tried: seq<Tried>, tokenId: int, channelId: int, picks: seq<Option<int>>, attempts: seq<Attempt>,
                      holds: seq<Option<int>>) {
    && 0 < |tried| == |holds| <= |attempts|
    && ChannelsOf(tried) <= [channelId] + Different(channelId, picks)
    && (forall i :: 0 <= i < |tried| ==> ComesFrom(tried[i], attempts[i], holds[i]))
    && (forall i :: 0 <= i < |tried| - 1 ==> tried[i].failed)
    && SameToken(tried, tokenId)
  }

  /** Before the k-th pick, after nothing but failures. */
  ghost predicate Going(tried: seq<Tried>, tokenId: int, channelId: int, picks: seq<Option<int>>, attempts: seq<Attempt>,
                        holds: seq<Option<int>>, k: nat) {
    && k <= |picks| && |tried| <= k + 1
    && Ran(tried, tokenId, channelId, picks, attempts, holds) && tried[|tried| - 1].failed
    && [channelId] + Different(channelId, picks)
       == ChannelsOf(tried) + Different(tried[|tried| - 1].meta.channelId, picks[k..])
  }

  /** Each hold was told from the accounts as the attempts before it had left them. */
  ghost predicate HoldsRead(db: Db, tried: seq<Tried>, attempts: seq<Attempt>, holds: seq<Option<int>>) {
    && |tried| == |holds| <= |attempts|
    && forall i :: 0 <= i < |tried| ==> holds[i] == HoldFor(EffectAll(db, tried[..i]), tried[i].meta, attempts[i])
  }

  lemma HoldsReadNext(db: Db, tried: seq<Tried>, attempts: seq<Attempt>, holds: seq<Option<int>>, next: Tried, hold: Option<int>)
    requires HoldsRead(db, tried, attempts, holds) && |tried| < |attempts|
    requires hold == HoldFor(EffectAll(db, tried), next.meta, attempts[|tried|])
    ensures HoldsRead(db, tried + [next], attempts, holds + [hold])
  {
    hide HoldFor, EffectAll;
    var all := tried + [next];
    forall i | 0 <= i < |all| ensures (holds + [hold])[i] == HoldFor(EffectAll(db, all[..i]), all[i].meta, attempts[i]) {
      assert all[..i] == if i < |tried| then tried[..i] else tried;
    }
  }

  /** All attempts of one request: further ones only after a failure to be retried, and then until one succeeds. */
  ghost predicate Relayed(tried: seq<Tried>, tokenId: int, channelId: int, pinned: bool, picks: seq<Option<int>>,
                          attempts: seq<Attempt>, holds: seq<Option<int>>) {
    && Ran(tried, tokenId, channelId, picks, attempts, holds)
    && (|tried| > 1 ==> ShouldRetry(pinned, tried[0].statusCode))
    && (tried[|tried| - 1].failed && ShouldRetry(pinned, tried[0].statusCode)
        ==> ChannelsOf(tried) == [channelId] + Different(channelId, picks))
  }

  /** A request whose first attempt fails is sent on exactly when that failure allows it and a pick gives another channel. */
  lemma RetriedIff(tried: seq<Tried>, tokenId: int, channelId: int, pinned: bool, picks: seq<Option<int>>,
                   attempts: seq<Attempt>, holds: seq<Option<int>>)
    requires Relayed(tried, tokenId, channelId, pinned, picks, attempts, holds) && tried[0].failed
    ensures |tried| > 1 <==> !pinned && SentOn(attempts[0], holds[0]) && Different(channelId, picks) != []
  {
    hide Different, SentOn, ShouldRetry;
    StatusSendsOn(tried[0], attempts[0], holds[0], pinned);
    assert |ChannelsOf(tried)| <= |[channelId] + Different(channelId, picks)|;
  }

  /**
    `picks` are the channels that the cache would give, `attempts` what would come of each attempt.
    Attempts go on until one succeeds, the picks run out or give nothing, or the first error is not
    one to retry.  `holds` are the holds they were given.
   */
  method Relay(store: QuotaStore, userId: int, tokenId: int, channelId: int, pinned: bool,
               picks: seq<Option<int>>, attempts: seq<Attempt>) returns (tried: seq<Tried>, ghost holds: seq<Option<int>>)
    requires store.Valid() && |attempts| > |picks|
    modifies store`db, store`batchUpdateStores, store`rows
    ensures store.Valid() && store.rows == EffectAll(old(store.rows), tried)
    ensures Relayed(tried, tokenId, channelId, pinned, picks, attempts, holds)
    ensures forall t :: t in tried ==> t.meta.userId == userId
    ensures old(store.Direct()) ==> HoldsRead(old(store.rows), tried, attempts, holds)
  {
    hide EffectOf, QuotaStore.Valid, ComesFrom, Different, ChannelsOf, EffectAll, ShouldRetry, Going, HoldsRead, HoldFor;
    hide Ran, Relayed;
    ghost var (before, direct) := (store.rows, store.Direct());
    if direct {
      store.DirectRows();
    }
    NothingTried(before, attempts);
    var first;
    ghost var hold;
    first, hold := RelayHelper(store, MetaFor(userId, tokenId, channelId, attempts[0]), attempts[0]);
    tried, holds := [first], [hold];
    if direct {
      HoldsReadNext(before, [], attempts, [], first, hold);
      assert [] + [first] == [first] && [] + [hold] == [hold];
    }
    FirstTried(before, first, tokenId, picks, attempts, hold);
    if !first.failed || !ShouldRetry(pinned, first.statusCode) {
      Finished(tried, tokenId, channelId, pinned, picks, attempts, holds);
      return;
    }
    var lastFailedChannelId := channelId;
    for k := 0 to |picks|
      invariant store.Valid() && store.rows == EffectAll(before, tried)
      invariant Going(tried, tokenId, channelId, picks, attempts, holds, k)
      invariant direct ==> store.Direct() && HoldsRead(before, tried, attempts, holds)
      invariant forall t :: t in tried ==> t.meta.userId == userId
      invariant tried != [] && tried[0] == first && lastFailedChannelId == tried[|tried| - 1].meta.channelId
    {
      Pick(tried, tokenId, channelId, picks, attempts, holds, k);
      if picks[k].None? {
        Finished(tried, tokenId, channelId, pinned, picks, attempts, holds);
        return;
      }
      var channel := picks[k].value;
      if channel == lastFailedChannelId {
        continue;
      }
      var attempt := attempts[|tried|];
      if direct {
        store.DirectRows();
      }
      var next;
      next, hold := RelayHelper(store, MetaFor(userId, tokenId, channel, attempt), attempt);
      NextTried(before, tried, next, tokenId, channelId, picks, attempts, holds, hold, k);
      if direct {
        HoldsReadNext(before, tried, attempts, holds, next, hold);
      }
      tried, holds := tried + [next], holds + [hold];
      if !next.failed {
        Finished(tried, tokenId, channelId, pinned, picks, attempts, holds);
        return;
      }
      lastFailedChannelId := channel;
    }
    OutOfPicks(tried, tokenId, channelId, picks, attempts, holds);
    Finished(tried, tokenId, channelId, pinned, picks, attempts, holds);
  }

  /** The ways a run may end. */
  lemma Finished(tried: seq<Tried>, tokenId: int, channelId: int, pinned: bool, picks: seq<Option<int>>,
                 attempts: seq<Attempt>, holds: seq<Option<int>>)
    requires Ran(tried, tokenId, channelId, picks, attempts, holds)
    requires |tried| > 1 ==> ShouldRetry(pinned, tried[0].statusCode)
    requires !tried[|tried| - 1].failed || !ShouldRetry(pinned, tried[0].statusCode)
             || ChannelsOf(tried) == [channelId] + Different(channelId, picks)
    ensures Relayed(tried, tokenId, channelId, pinned, picks, attempts, holds)
  {
    hide ShouldRetry, Different, ChannelsOf, ComesFrom;
  }

  lemma NothingTried(db: Db, attempts: seq<Attempt>)
    ensures EffectAll(db, []) == db && HoldsRead(db, [], attempts, [])
  {
  }

  function MetaFor(userId: int, tokenId: int, channelId: int, attempt: Attempt): Meta {
    Meta(userId, tokenId, channelId, attempt.ratio, attempt.completionRatio)
  }

  lemma FirstTried(db: Db, first: Tried, tokenId: int, picks: seq<Option<int>>, attempts: seq<Attempt>, hold: Option<int>)
    requires attempts != [] && ComesFrom(first, attempts[0], hold) && first.meta.tokenId == tokenId
    ensures EffectAll(db, [first]) == EffectOf(db, first)
    ensures Ran([first], tokenId, first.meta.channelId, picks, attempts, [hold])
    ensures first.failed ==> Going([first], tokenId, first.meta.channelId, picks, attempts, [hold], 0)
  {
    hide EffectOf, ComesFrom, Different;
    assert [first][..0] == [] && picks[0..] == picks;
    assert ChannelsOf([first]) == [first.meta.channelId];
  }

  /** What the k-th pick decides. */
  lemma Pick(tried: seq<Tried>, tokenId: int, channelId: int, picks: seq<Option<int>>, attempts: seq<Attempt>,
             holds: seq<Option<int>>, k: nat)
    requires k < |picks| && Going(tried, tokenId, channelId, picks, attempts, holds, k)
    ensures Ran(tried, tokenId, channelId, picks, attempts, holds) && |tried| <= k + 1
    ensures picks[k].None? ==> ChannelsOf(tried) == [channelId] + Different(channelId, picks)
    ensures picks[k] == Some(tried[|tried| - 1].meta.channelId) ==> Going(tried, tokenId, channelId, picks, attempts, holds, k + 1)
  {
    hide Ran, ChannelsOf;
    assert picks[k..][1..] == picks[k + 1..];
    assert ChannelsOf(tried) + [] == ChannelsOf(tried);
  }

  lemma OneMoreTried(tried: seq<Tried>, next: Tried, tokenId: int, attempts: seq<Attempt>,
                     holds: seq<Option<int>>, hold: Option<int>)
    requires SameToken(tried, tokenId) && next.meta.tokenId == tokenId && |tried| == |holds| < |attempts|
    requires forall i :: 0 <= i < |tried| ==> ComesFrom(tried[i], attempts[i], holds[i]) && tried[i].failed
    requires ComesFrom(next, attempts[|tried|], hold)
    ensures var all := tried + [next];
            && all[..|tried|] == tried && ChannelsOf(all) == ChannelsOf(tried) + [next.meta.channelId] && SameToken(all, tokenId)
            && (forall i :: 0 <= i < |all| ==> ComesFrom(all[i], attempts[i], (holds + [hold])[i]))
            && (forall i :: 0 <= i < |all| - 1 ==> all[i].failed)
  {
    hide ComesFrom;
  }

  lemma NextTried(db: Db, tried: seq<Tried>, next: Tried,
                  tokenId: int, channelId: int, picks: seq<Option<int>>, attempts: seq<Attempt>,
                  holds: seq<Option<int>>, hold: Option<int>, k: nat)
    requires k < |picks| < |attempts| && Going(tried, tokenId, channelId, picks, attempts, holds, k)
    requires picks[k] == Some(next.meta.channelId) && next.meta.channelId != tried[|tried| - 1].meta.channelId
    requires ComesFrom(next, attempts[|tried|], hold) && next.meta.tokenId == tokenId
    ensures EffectAll(db, tried + [next]) == EffectOf(EffectAll(db, tried), next)
    ensures Ran(tried + [next], tokenId, channelId, picks, attempts, holds + [hold])
    ensures next.failed ==> Going(tried + [next], tokenId, channelId, picks, attempts, holds + [hold], k + 1)
  {
    hide EffectOf, ComesFrom, Different, ChannelsOf, SameToken;
    var channel := next.meta.channelId;
    OneMoreTried(tried, next, tokenId, attempts, holds, hold);
    PickTaken(tried[|tried| - 1].meta.channelId, picks, k);
    MovedOver(ChannelsOf(tried), channel, Different(channel, picks[k + 1..]));
  }

  lemma PickTaken(last: int, picks: seq<Option<int>>, k: nat)
    requires k < |picks| && picks[k].Some? && picks[k].value != last
    ensures Different(last, picks[k..]) == [picks[k].value] + Different(picks[k].value, picks[k + 1..])
  {
    assert picks[k..][1..] == picks[k + 1..];
  }

  lemma MovedOver(before: seq<int>, x: int, after: seq<int>)
    ensures before + ([x] + after) == (before + [x]) + after
  {
  }

  lemma OutOfPicks(tried: seq<Tried>, tokenId: int, channelId: int, picks: seq<Option<int>>, attempts: seq<Attempt>,
                   holds: seq<Option<int>>)
    requires Going(tried, tokenId, channelId, picks, attempts, holds, |picks|)
    ensures Ran(tried, tokenId, channelId, picks, attempts, holds)
    ensures ChannelsOf(tried) == [channelId] + Different(channelId, picks)
  {
    hide Ran, ChannelsOf;
  }

  /** No channel is tried twice in a row, and there are no more attempts than picks and one. */
  lemma {:induction false} DifferentChains(last: int, picks: seq<Option<int>>)
    ensures var channels := [last] + Different(last, picks);
            && |channels| <= |picks| + 1
            && forall i :: 0 < i < |channels| ==> channels[i] != channels[i - 1]
    decreases |picks|
  {
    if picks != [] && picks[0].Some? {
      DifferentChains(picks[0].value, picks[1..]);
      DifferentChains(last, picks[1..]);
      if picks[0].value != last {
        var rest := [picks[0].value] + Different(picks[0].value, picks[1..]);
        assert Different(last, picks) == rest;
      }
    }
  }

  /** One more pick is one more attempt unless it is the channel that was picked just before, and none after a failing pick. */
  lemma {:induction false} OneMorePick(last: int, picks: seq<Option<int>>, pick: Option<int>, more: seq<Option<int>>)
    requires forall i :: 0 <= i < |picks| ==> picks[i].Some?
    ensures var before := if picks == [] then last else picks[|picks| - 1].value;
            Different(last, picks + [pick]) ==
              Different(last, picks) + if pick.Some? && pick.value != before then [pick.value] else []
    ensures pick.None? ==> Different(last, picks + [pick] + more) == Different(last, picks)
    decreases |picks|
  {
    if picks == [] {
      assert ([pick] + more)[0] == pick;
    } else {
      OneMorePick(picks[0].value, picks[1..], pick, more);
      assert (picks + [pick])[1..] == picks[1..] + [pick];
      assert (picks + [pick] + more)[1..] == picks[1..] + [pick] + more;
    }
  }

  // ---- What a request with retries costs ----

  /** What an attempt takes from user and token for good. */
  function Cost(t: Tried): int {
    match t.outcome
    case Kept(hold) => hold
    case Settled(price) => price
    case _ => 0
  }

  function TotalCost(tried: seq<Tried>): int {
    if tried == [] then 0 else TotalCost(tried[..|tried| - 1]) + Cost(tried[|tried| - 1])
  }

  /** The columns that charges move, and those they read. */
  predicate SameBalances(a: Db, b: Db) {
    && a.userQuota == b.userQuota && a.remainQuota == b.remainQuota && a.tokenUsedQuota == b.tokenUsedQuota
    && a.owner == b.owner && a.unlimited == b.unlimited
  }

  lemma ChargesAlike(a: Db, b: Db, tokenId: int, amount: int)
    requires SameBalances(a, b)
    ensures SameBalances(Charge(a, tokenId, amount), Charge(b, tokenId, amount))
  {
    hide Added, Charge;
    ChargedColumns(a, tokenId, amount);
    ChargedColumns(b, tokenId, amount);
  }

  lemma BookingMovesNoBalance(db: Db, meta: Meta, price: int)
    ensures SameBalances(Book(db, meta, price), db)
  {
    hide Added;
  }

  lemma EffectCosts(db: Db, t: Tried)
    ensures SameBalances(EffectOf(db, t), Charge(db, t.meta.tokenId, Cost(t)))
  {
    hide Charge, Book;
    ChargeNothing(db, t.meta.tokenId);
    BookingMovesNoBalance(Charge(db, t.meta.tokenId, Cost(t)), t.meta, Cost(t));
  }

  /** User and token pay for a run the sum of what its attempts cost, whatever channels they went to. */
  lemma {:induction false} RunCosts(db: Db, tried: seq<Tried>, tokenId: int)
    requires SameToken(tried, tokenId)
    ensures SameBalances(EffectAll(db, tried), Charge(db, tokenId, TotalCost(tried)))
  {
    hide Charge, EffectOf, Cost;
    if tried == [] {
      ChargeNothing(db, tokenId);
    } else {
      var (before, last) := (tried[..|tried| - 1], tried[|tried| - 1]);
      assert tried == before + [last];
      RunCosts(db, before, tokenId);
      EffectCosts(EffectAll(db, before), last);
      ChargesAlike(EffectAll(db, before), Charge(db, tokenId, TotalCost(before)), tokenId, Cost(last));
      ChargesAddUp(db, tokenId, TotalCost(before), Cost(last));
    }
  }

  /**
    What makes a failed attempt cost something: a text request that leaves by an exit that forgets a
    hold, or an audio or image answer that is to be paid for.
   */
  predicate Leaks(attempt: Attempt, hold: Option<int>) {
    attempt.valid && hold.Some? &&
    match attempt.exit
    case Text(text) =>
      (text.NoAdaptor? || text.ConvertFailed? || text.RequestFailed? || text == Answered(None)) && hold.value != 0
    case Audio(Heard(quota), _) => quota != 0
    case Audio(Failed, _) => false
    case Image(image, _) => image == Responded(true) && attempt.estimate != 0
    case Proxy(_) => false
  }

  function LeakOf(attempt: Attempt, hold: Option<int>): int {
    if !Leaks(attempt, hold) then 0
    else
      match attempt.exit
      case Text(_) => hold.value
      case Audio(Heard(quota), _) => quota
      case _ => attempt.estimate
  }

  /** A failed attempt costs just its leak, in all columns of the accounts that charges move. */
  lemma FailureCosts(t: Tried, attempt: Attempt, hold: Option<int>)
    requires ComesFrom(t, attempt, hold) && t.failed
    ensures Cost(t) == LeakOf(attempt, hold)
    ensures Cost(t) != 0 <==> Leaks(attempt, hold)
    ensures forall db :: SameBalances(EffectOf(db, t), Charge(db, t.meta.tokenId, LeakOf(attempt, hold)))
  {
    hide Charge, Book, Pricing.Price;
    forall db ensures SameBalances(EffectOf(db, t), Charge(db, t.meta.tokenId, LeakOf(attempt, hold))) {
      EffectCosts(db, t);
    }
  }

  lemma {:induction false} NonNegativeSum(tried: seq<Tried>)
    requires forall i :: 0 <= i < |tried| ==> Cost(tried[i]) >= 0
    ensures TotalCost(tried) >= 0
    ensures TotalCost(tried) == 0 <==> forall i :: 0 <= i < |tried| ==> Cost(tried[i]) == 0
  {
    hide Cost;
    if tried != [] {
      NonNegativeSum(tried[..|tried| - 1]);
    }
  }

  /** Audio answers have no negative quota. */
  predicate NonNegative(attempt: Attempt) {
    attempt.exit.Audio? && attempt.exit.audio.Heard? ==> attempt.exit.audio.quota >= 0
  }

  /** A request pays just for its last attempt exactly when none of the failed attempts before it leaks. */
  lemma PaysForLastIff(tried: seq<Tried>, tokenId: int, channelId: int, picks: seq<Option<int>>, attempts: seq<Attempt>,
                       holds: seq<Option<int>>)
    requires Ran(tried, tokenId, channelId, picks, attempts, holds) && forall attempt :: attempt in attempts ==> NonNegative(attempt)
    ensures TotalCost(tried) >= Cost(tried[|tried| - 1])
    ensures TotalCost(tried) == Cost(tried[|tried| - 1]) <==>
            forall i :: 0 <= i < |tried| - 1 ==> !Leaks(attempts[i], holds[i])
  {
    hide ComesFrom, ChannelsOf, Different;
    var earlier := tried[..|tried| - 1];
    forall i | 0 <= i < |earlier| ensures Cost(earlier[i]) >= 0 && (Cost(earlier[i]) != 0 <==> Leaks(attempts[i], holds[i])) {
      assert attempts[i] in attempts;
      LeakIsNoGift(tried[i], attempts[i], holds[i]);
    }
    hide Cost, Leaks;
    NonNegativeSum(earlier);
  }

  lemma LeakIsNoGift(t: Tried, attempt: Attempt, hold: Option<int>)
    requires ComesFrom(t, attempt, hold) && t.failed && NonNegative(attempt)
    ensures Cost(t) >= 0 && (Cost(t) != 0 <==> Leaks(attempt, hold))
  {
    FailureCosts(t, attempt, hold);
  }

  ghost predicate NoneSettled(tried: seq<Tried>) {
    forall i :: 0 <= i < |tried| ==> !tried[i].outcome.Settled?
  }

  lemma {:induction false} UnsettledOnlyCharge(db: Db, tried: seq<Tried>, tokenId: int)
    requires SameToken(tried, tokenId) && NoneSettled(tried)
    ensures EffectAll(db, tried) == Charge(db, tokenId, TotalCost(tried))
  {
    hide Charge;
    if tried == [] {
      ChargeNothing(db, tokenId);
    } else {
      var (before, last) := (tried[..|tried| - 1], tried[|tried| - 1]);
      assert tried == before + [last];
      UnsettledOnlyCharge(db, before, tokenId);
      ChargeNothing(EffectAll(db, before), tokenId);
      ChargesAddUp(db, tokenId, TotalCost(before), Cost(last));
    }
  }

  /** With failures that are not settled, all accounts are as after the last attempt and one charge of what the failures cost. */
  lemma UnsettledFailures(db: Db, tried: seq<Tried>, tokenId: int)
    requires tried != [] && SameToken(tried, tokenId) && NoneSettled(tried[..|tried| - 1])
    ensures var (earlier, last) := (tried[..|tried| - 1], tried[|tried| - 1]);
            && EffectAll(db, tried) == EffectOf(Charge(db, tokenId, TotalCost(earlier)), last)
            && (TotalCost(earlier) == 0 ==> EffectAll(db, tried) == EffectOf(db, last))
  {
    hide Charge, EffectOf, TotalCost, NoneSettled;
    var earlier := tried[..|tried| - 1];
    assert tried == earlier + [tried[|tried| - 1]];
    UnsettledOnlyCharge(db, earlier, tokenId);
    ChargeNothing(db, tokenId);
  }
}
