/**
  The life of one relayed request as its handler runs it: a hold, the upstream call, and then a
  settlement, a refund, or neither.  Work that the handlers leave to goroutines is run to its end here.
 */
module Billing {
  import opened Wrappers
  import opened Database
  import opened Pricing
  import opened Quota

  datatype Usage = Usage(promptTokens: nat, completionTokens: nat)

  datatype Meta = Meta(userId: int, tokenId: int, channelId: int, ratio: real, completionRatio: real)

  datatype Outcome = Rejected | Refunded | Kept(hold: int) | Settled(price: int)

  /** The usage and the counters of a settled request. */
  function Book(db: Db, meta: Meta, price: int): Db {
    AddChannelUsedQuota(AddRequestCount(AddUserUsedQuota(db, meta.userId, price), meta.userId, 1), meta.channelId, price)
  }

  /** All that a request does to the accounts, told by its outcome alone. */
  function Effect(db: Db, meta: Meta, outcome: Outcome): Db {
    match outcome
    case Rejected => db
    case Refunded => db
    case Kept(hold) => Charge(db, meta.tokenId, hold)
    case Settled(price) => Book(Charge(db, meta.tokenId, price), meta, price)
  }

  /** The hold that remains after the trust rule, or nothing when the balance is too low. */
  function Hold(db: Db, meta: Meta, estimate: int): Option<int> {
    var balance := Value(db.userQuota, meta.userId);
    if balance - estimate < 0 then None
    else
      var hold := if balance > 100 * estimate then 0 else estimate;
      if hold > 0 && !Affordable(db, meta.tokenId, hold) then None else Some(hold)
  }

  /** The accounts after a hold; a request that is trusted has a hold of zero. */
  function Held(db: Db, meta: Meta, hold: int): Db {
    if hold > 0 then Charge(db, meta.tokenId, hold) else db
  }

  lemma HeldThenCharged(db: Db, meta: Meta, hold: int, price: int)
    requires hold >= 0
    ensures Charge(Held(db, meta, hold), meta.tokenId, price - hold) == Charge(db, meta.tokenId, price)
  {
    hide Charge;
    ChargesAddUp(db, meta.tokenId, hold, price - hold);
  }

  lemma HeldThenReturned(db: Db, meta: Meta, hold: int)
    requires hold >= 0
    ensures Charge(Held(db, meta, hold), meta.tokenId, -hold) == db
    ensures Held(db, meta, hold) == Charge(db, meta.tokenId, hold)
  {
    HeldThenCharged(db, meta, hold, 0);
    ChargeNothing(db, meta.tokenId);
  }

  /** Takes the hold, or fails without touching the accounts. */
  method PreConsumeQuota(store: QuotaStore, meta: Meta, estimate: int) returns (hold: Option<int>)
    requires store.Valid()
    modifies store`db, store`batchUpdateStores, store`rows
    ensures !store.batchUpdateEnabled ==> store.batchUpdateStores == old(store.batchUpdateStores)
    ensures store.Valid() && hold == Hold(old(store.db), meta, estimate)
    ensures store.rows == if hold.Some? then Held(old(store.rows), meta, hold.value) else old(store.rows)
  {
    var preConsumedQuota := estimate;
    var userQuota := Value(store.db.userQuota, meta.userId);
    if userQuota - preConsumedQuota < 0 {
      return None;
    }
    if userQuota > 100 * preConsumedQuota {
      preConsumedQuota := 0;
    }
    if preConsumedQuota > 0 {
      var ok := store.PreConsumeTokenQuota(meta.tokenId, preConsumedQuota);
      if !ok {
        return None;
      }
    }
    return Some(preConsumedQuota);
  }

  method ReturnPreConsumedQuota(store: QuotaStore, preConsumedQuota: int, tokenId: int)
    requires store.Valid()
    modifies store`db, store`batchUpdateStores, store`rows
    ensures !store.batchUpdateEnabled ==> store.batchUpdateStores == old(store.batchUpdateStores)
    ensures store.Valid() && store.rows == Charge(old(store.rows), tokenId, -preConsumedQuota)
  {
    ChargeNothing(store.rows, tokenId);
    if preConsumedQuota != 0 {
      var _ := store.PostConsumeTokenQuota(tokenId, -preConsumedQuota);
    }
  }

  method ComputeQuota(promptTokens: nat, completionTokens: nat, completionRatio: real, ratio: real) returns (quota: int)
    ensures quota == Price(promptTokens, completionTokens, completionRatio, ratio)
    ensures ratio > 0.0 && completionRatio >= 0.0 && promptTokens + completionTokens > 0 ==>
              var exact := (promptTokens as real + completionTokens as real * completionRatio) * ratio;
              exact <= quota as real && (quota == 1 || quota as real < exact + 1.0)
  {
    quota := Ceil((promptTokens as real + completionTokens as real * completionRatio) * ratio);
    if ratio != 0.0 && quota <= 0 {
      quota := 1;
    }
    var totalTokens := promptTokens + completionTokens;
    if totalTokens == 0 {
      quota := 0;
    }
  }

  /** Charges what the hold does not cover, or gives back what it exceeds, and books the whole price. */
  method Settle(store: QuotaStore, meta: Meta, quota: int, preConsumedQuota: int)
    requires store.Valid()
    modifies store`db, store`batchUpdateStores, store`rows
    ensures !store.batchUpdateEnabled ==> store.batchUpdateStores == old(store.batchUpdateStores)
    ensures store.Valid()
    ensures store.rows == Book(Charge(old(store.rows), meta.tokenId, quota - preConsumedQuota), meta, quota)
  {
    hide Charge, Added, QuotaStore.Valid;
    var quotaDelta := quota - preConsumedQuota;
    var _ := store.PostConsumeTokenQuota(meta.tokenId, quotaDelta);
    store.UpdateUserUsedQuotaAndRequestCount(meta.userId, quota);
    store.UpdateChannelUsedQuota(meta.channelId, quota);
  }

  // ---- Text requests ----

  /** How a text request leaves `RelayTextHelper` once the hold is taken. */
  datatype TextExit =
    | NoAdaptor
    | ConvertFailed
    | RequestFailed
    | UpstreamError
    | ResponseError
    | Answered(usage: Option<Usage>)

  /** The exits that give nothing back: the request was never answered, or the answer had no usage. */
  predicate Forgetful(exit: TextExit) {
    exit.NoAdaptor? || exit.ConvertFailed? || exit.RequestFailed? || exit == Answered(None)
  }

  /** What becomes of a text request that was given a hold. */
  function TextOutcome(meta: Meta, hold: int, exit: TextExit): Outcome {
    if Forgetful(exit) then Kept(hold)
    else if exit.Answered? then
      var usage := exit.usage.value;
      Settled(Price(usage.promptTokens, usage.completionTokens, meta.completionRatio, meta.ratio))
    else Refunded
  }

  /** Which exits keep the hold, which give it back, and which settle. */
  lemma TextExits(meta: Meta, hold: int, exit: TextExit)
    ensures var outcome := TextOutcome(meta, hold, exit);
            && (outcome.Kept? <==> exit.NoAdaptor? || exit.ConvertFailed? || exit.RequestFailed? || exit == Answered(None))
            && (outcome.Kept? ==> outcome.hold == hold)
            && (outcome == Refunded <==> exit.UpstreamError? || exit.ResponseError?)
            && (outcome.Settled? <==> exit.Answered? && exit.usage.Some?)
            && (outcome.Settled? ==>
                  outcome.price == Price(exit.usage.value.promptTokens, exit.usage.value.completionTokens,
                                         meta.completionRatio, meta.ratio))
  {
  }

  /** What a settled request moves: its price from the user and a limited token, and all three counters. */
  lemma SettledMoves(db: Db, meta: Meta, price: int)
    requires meta.tokenId != 0 && meta.tokenId in db.owner && db.owner[meta.tokenId] == meta.userId
    requires meta.userId in db.userQuota && meta.userId in db.userUsedQuota && meta.userId in db.requestCount
    requires meta.channelId in db.channelUsedQuota
    ensures var done := Effect(db, meta, Settled(price));
            && Value(done.userQuota, meta.userId) == db.userQuota[meta.userId] - price
            && Value(done.userUsedQuota, meta.userId) == db.userUsedQuota[meta.userId] + price
            && Value(done.requestCount, meta.userId) == db.requestCount[meta.userId] + 1
            && Value(done.channelUsedQuota, meta.channelId) == db.channelUsedQuota[meta.channelId] + price
            && Effect(db, meta, Refunded) == db == Effect(db, meta, Rejected)
  {
    hide Charge;
    ChargeMoves(db, meta.tokenId, price, meta.userId);
  }

  /** When there is no hold, when it is nothing, and when it is the estimate. */
  lemma HoldIs(db: Db, meta: Meta, estimate: nat)
    ensures var (hold, balance) := (Hold(db, meta, estimate), Value(db.userQuota, meta.userId));
            var found := meta.tokenId != 0 && meta.tokenId in db.owner;
            var limited := found && !(meta.tokenId in db.unlimited && db.unlimited[meta.tokenId]);
            var covered := && found && Value(db.userQuota, db.owner[meta.tokenId]) >= estimate
                           && (limited ==> Value(db.remainQuota, meta.tokenId) >= estimate);
            if balance < estimate then hold == None
            else if balance > 100 * estimate || estimate == 0 then hold == Some(0)
            else hold == if covered then Some(estimate) else None
  {
  }

  /**
    A text request changes the accounts by its outcome alone: nothing when it is rejected or
    refunded, exactly its price when it is settled, and its hold on the exits that forget it.
   */
  method RelayTextHelper(store: QuotaStore, meta: Meta, estimate: nat, exit: TextExit) returns (outcome: Outcome)
    requires store.Valid()
    modifies store`db, store`batchUpdateStores, store`rows
    ensures !store.batchUpdateEnabled ==> store.batchUpdateStores == old(store.batchUpdateStores)
    ensures store.Valid()
    ensures outcome == match Hold(old(store.db), meta, estimate)
                       case None => Rejected
                       case Some(hold) => TextOutcome(meta, hold, exit)
    ensures store.rows == Effect(old(store.rows), meta, outcome)
    ensures exit.UpstreamError? || exit.ResponseError? ==> store.rows == old(store.rows)
  {
    var held := PreConsumeQuota(store, meta, estimate);
    if held.None? {
      return Rejected;
    }
    outcome := FinishText(store, meta, held.value, exit, old(store.rows));
  }

  /** What follows the hold. */
  method FinishText(store: QuotaStore, meta: Meta, preConsumedQuota: int, exit: TextExit, ghost before: Db)
    returns (outcome: Outcome)
    requires store.Valid() && preConsumedQuota >= 0 && store.rows == Held(before, meta, preConsumedQuota)
    modifies store`db, store`batchUpdateStores, store`rows
    ensures !store.batchUpdateEnabled ==> store.batchUpdateStores == old(store.batchUpdateStores)
    ensures store.Valid() && outcome == TextOutcome(meta, preConsumedQuota, exit)
    ensures store.rows == Effect(before, meta, outcome)
    ensures exit.UpstreamError? || exit.ResponseError? ==> store.rows == before
  {
    hide Charge, Book, QuotaStore.Valid;
    HeldThenReturned(before, meta, preConsumedQuota);
    match exit {
      case NoAdaptor => return Kept(preConsumedQuota);
      case ConvertFailed => return Kept(preConsumedQuota);
      case RequestFailed => return Kept(preConsumedQuota);
      case UpstreamError =>
        ReturnPreConsumedQuota(store, preConsumedQuota, meta.tokenId);
        return Refunded;
      case ResponseError =>
        ReturnPreConsumedQuota(store, preConsumedQuota, meta.tokenId);
        return Refunded;
      case Answered(usage) =>
        if usage.None? {
          return Kept(preConsumedQuota);
        }
        var quota := ComputeQuota(usage.value.promptTokens, usage.value.completionTokens, meta.completionRatio, meta.ratio);
        Settle(store, meta, quota, preConsumedQuota);
        HeldThenCharged(before, meta, preConsumedQuota, quota);
        return Settled(quota);
    }
  }

  // ---- Audio requests ----

  /** `Heard` carries the final quota; every other way out is `Failed`. */
  datatype AudioExit = Failed | Heard(quota: int)

  /** The booking that audio requests skip when nothing was consumed. */
  function BookSome(db: Db, meta: Meta, price: int): Db {
    if price != 0 then Book(db, meta, price) else db
  }

  /** What is booked for a price that is not zero is booked as for any request, and nothing is for zero. */
  lemma SomeBooked(db: Db, meta: Meta, price: int)
    ensures price != 0 ==> BookSome(Charge(db, meta.tokenId, price), meta, price) == Effect(db, meta, Settled(price))
    ensures price == 0 ==> BookSome(Charge(db, meta.tokenId, price), meta, price) == db
  {
    ChargeNothing(db, meta.tokenId);
    hide Charge, Book;
  }

  /** An audio request keeps no hold: it is settled at its price or leaves the accounts as they were. */
  method RelayAudioHelper(store: QuotaStore, meta: Meta, estimate: nat, exit: AudioExit) returns (outcome: Outcome)
    requires store.Valid()
    modifies store`db, store`batchUpdateStores, store`rows
    ensures !store.batchUpdateEnabled ==> store.batchUpdateStores == old(store.batchUpdateStores)
    ensures store.Valid()
    ensures outcome == if Hold(old(store.db), meta, estimate).None? then Rejected
                       else if exit.Heard? then Settled(exit.quota) else Refunded
    ensures store.rows == if outcome.Settled? then BookSome(Charge(old(store.rows), meta.tokenId, exit.quota), meta, exit.quota)
                          else old(store.rows)
  {
    hide Charge, Book, QuotaStore.Valid, Affordable;
    ghost var before := store.rows;
    var held := PreConsumeQuota(store, meta, estimate);
    if held.None? {
      return Rejected;
    }
    var preConsumedQuota := held.value;
    var succeed := exit.Heard?;
    if succeed {
      HeldThenCharged(before, meta, preConsumedQuota, exit.quota);
      if exit.quota != 0 {
        Settle(store, meta, exit.quota, preConsumedQuota);
      } else {
        var _ := store.PostConsumeTokenQuota(meta.tokenId, -preConsumedQuota);
      }
      return Settled(exit.quota);
    }
    HeldThenReturned(before, meta, preConsumedQuota);
    if preConsumedQuota > 0 {
      var _ := store.PostConsumeTokenQuota(meta.tokenId, -preConsumedQuota);
    }
    return Refunded;
  }

  // ---- Image requests ----

  /** Whether the upstream was reached, and whether what came of it is to be paid for. */
  datatype ImageExit = Unsent | Responded(charged: bool)

  /** An image request holds nothing: it is settled at its price or leaves the accounts as they were. */
  method RelayImageHelper(store: QuotaStore, meta: Meta, quota: int, exit: ImageExit) returns (outcome: Outcome)
    requires store.Valid()
    modifies store`db, store`batchUpdateStores, store`rows
    ensures !store.batchUpdateEnabled ==> store.batchUpdateStores == old(store.batchUpdateStores)
    ensures store.Valid()
    ensures outcome == if Value(old(store.db).userQuota, meta.userId) - quota < 0 then Rejected
                       else if exit == Responded(true) then Settled(quota) else Refunded
    ensures store.rows == if outcome.Settled? then BookSome(Charge(old(store.rows), meta.tokenId, quota), meta, quota)
                          else old(store.rows)
  {
    hide Charge, Book, QuotaStore.Valid;
    var userQuota := Value(store.db.userQuota, meta.userId);
    if userQuota - quota < 0 {
      return Rejected;
    }
    if exit.Unsent? || !exit.charged {
      return Refunded;
    }
    if quota != 0 {
      Settle(store, meta, quota, 0);
    } else {
      var _ := store.PostConsumeTokenQuota(meta.tokenId, quota);
    }
    return Settled(quota);
  }
}
