/**
  Quota accounting over the database, directly or through the batch updater.  `rows` is what the
  rows hold once everything buffered has arrived; every operation has the same effect on it in both
  modes.
 */
module Quota {
  import opened Collections
  import opened Database
  import opened BatchUpdater

  predicate Unlimited(db: Db, tokenId: int) {
    tokenId in db.unlimited && db.unlimited[tokenId]
  }

  /** Looking a token up by id; id 0 counts as missing. */
  predicate TokenFound(db: Db, tokenId: int) {
    tokenId != 0 && tokenId in db.owner
  }

  /** `quota` units taken from the owner of a token and, unless it is unlimited, from the token. */
  function Charge(db: Db, tokenId: int, quota: int): Db {
    if !TokenFound(db, tokenId) then db
    else if Unlimited(db, tokenId) then AddUserQuota(db, db.owner[tokenId], -quota)
    else AddTokenQuota(AddUserQuota(db, db.owner[tokenId], -quota), tokenId, -quota)
  }

  predicate Affordable(db: Db, tokenId: int, quota: int) {
    && quota >= 0 && TokenFound(db, tokenId)
    && (Unlimited(db, tokenId) || Value(db.remainQuota, tokenId) >= quota)
    && Value(db.userQuota, db.owner[tokenId]) >= quota
  }

  class QuotaStore {
    var db: Db
    var batchUpdateStores: map<Kind, Deltas>
    var batchUpdateEnabled: bool
    /** What the rows will hold once everything buffered has arrived. */
    ghost var rows: Db

    ghost predicate Valid()
      reads this
    {
      && (forall kind: Kind :: kind in batchUpdateStores)
      && rows == Effective(db, PendingOf(AsState(UserQuota, map[])))
    }

    /** Batching is off, and nothing is left from a time when it was on. */
    ghost predicate Direct()
      reads this
    {
      !batchUpdateEnabled && forall kind: Kind :: kind in batchUpdateStores && batchUpdateStores[kind] == map[]
    }

    /** Then the rows hold all there is. */
    lemma DirectRows()
      requires Valid() && Direct()
      ensures rows == db
    {
      DrainedIsEffective(AsState(UserQuota, map[]));
    }

    ghost function AsState(kind: Kind, draining: Deltas): (s: State)
      reads this`db, this`batchUpdateStores
      requires forall kind: Kind :: kind in batchUpdateStores
      ensures WellFormed(s)
    {
      State(db, batchUpdateStores, kind, draining)
    }

    method AddNewRecord(kind: Kind, id: int, value: int)
      requires Valid()
      modifies this`batchUpdateStores, this`rows
      ensures Valid()
      ensures rows == Applied(old(rows), kind, id, value)
      ensures forall k: Kind :: k != kind ==> batchUpdateStores[k] == old(batchUpdateStores)[k]
    {
      hide Effective, PendingOf, Applied;
      ghost var before := AsState(UserQuota, map[]);
      var store := batchUpdateStores[kind];
      if id !in store {
        store := store[id := value];
      } else {
        store := store[id := store[id] + value];
      }
      batchUpdateStores := batchUpdateStores[kind := store];
      assert AsState(UserQuota, map[]) == Next(before, Record(kind, id, value));
      StepRefines(before, Record(kind, id, value));
      rows := Applied(rows, kind, id, value);
    }

    /** One pass of the updater with no request in between empties every store into the rows. */
    method BatchUpdate()
      requires Valid()
      modifies this`db, this`batchUpdateStores, this`rows
      ensures Valid()
      ensures forall kind: Kind :: batchUpdateStores[kind] == map[]
      ensures db == old(rows) == rows
    {
      hide Effective, PendingOf;
      for i := 0 to |KINDS|
        invariant Valid() && rows == old(rows)
        invariant forall j :: 0 <= j < i ==> batchUpdateStores[KINDS[j]] == map[]
      {
        var kind := KINDS[i];
        var store := batchUpdateStores[kind];
        ghost var before := AsState(kind, map[]);
        IdleKind(AsState(UserQuota, map[]), kind);
        batchUpdateStores := batchUpdateStores[kind := map[]];
        assert AsState(kind, store) == Next(before, Swap(kind));
        StepRefines(before, Swap(kind));
        ApplyStore(kind, store);
      }
      forall kind: Kind ensures batchUpdateStores[kind] == map[] {
        EveryKind(kind);
      }
      DrainedIsEffective(AsState(UserQuota, map[]));
    }

    /** Applies a store that was swapped out, key by key in any order. */
    method ApplyStore(kind: Kind, swapped: Deltas)
      requires forall k: Kind :: k in batchUpdateStores
      requires rows == Effective(db, PendingOf(AsState(kind, swapped)))
      modifies this`db
      ensures Valid()
    {
      hide Effective, PendingOf, Applied;
      var store := swapped;
      while store != map[]
        invariant rows == Effective(db, PendingOf(AsState(kind, store)))
        decreases store.Keys
      {
        SomeInt(store.Keys);
        var key :| key in store.Keys;
        ghost var draining := AsState(kind, store);
        db := Applied(db, kind, key, store[key]);
        store := store - {key};
        assert AsState(kind, store) == Next(draining, Apply(key));
        StepRefines(draining, Apply(key));
      }
      IdleKind(AsState(kind, map[]), UserQuota);
    }

    /** With batching on, an operation touches only the stores; with batching off, only the rows. */
    twostate predicate Routed()
      reads this
    {
      if batchUpdateEnabled then db == old(db) else batchUpdateStores == old(batchUpdateStores)
    }

    /** A row update that bypasses the stores. */
    method Update(kind: Kind, id: int, value: int)
      requires Valid()
      modifies this`db, this`rows
      ensures Valid() && db == Applied(old(db), kind, id, value)
      ensures rows == Applied(old(rows), kind, id, value)
    {
      ghost var pending := PendingOf(AsState(UserQuota, map[]));
      ghost var more: Pending := (k, i) => pending(k, i) + if k == kind && i == id then value else 0;
      EffectiveDelta(db, pending, more, kind, id, value);
      db, rows := Applied(db, kind, id, value), Applied(rows, kind, id, value);
      EffectiveSame(db, pending, PendingOf(AsState(UserQuota, map[])));
    }

    /** What every counting operation does: one record, or one row update. */
    method Count(kind: Kind, id: int, value: int)
      requires Valid()
      modifies this`db, this`batchUpdateStores, this`rows
      ensures Valid() && Routed()
      ensures rows == Applied(old(rows), kind, id, value)
    {
      if batchUpdateEnabled {
        AddNewRecord(kind, id, value);
      } else {
        Update(kind, id, value);
      }
    }

    method IncreaseUserQuota(id: int, quota: int) returns (ok: bool)
      requires Valid()
      modifies this`db, this`batchUpdateStores, this`rows
      ensures Valid() && Routed() && ok == (quota >= 0)
      ensures rows == if ok then AddUserQuota(old(rows), id, quota) else old(rows)
    {
      hide QuotaStore.Valid, Added;
      if quota < 0 {
        return false;
      }
      Count(UserQuota, id, quota);
      return true;
    }

    method DecreaseUserQuota(id: int, quota: int) returns (ok: bool)
      requires Valid()
      modifies this`db, this`batchUpdateStores, this`rows
      ensures Valid() && Routed() && ok == (quota >= 0)
      ensures rows == if ok then AddUserQuota(old(rows), id, -quota) else old(rows)
    {
      hide QuotaStore.Valid, Added;
      if quota < 0 {
        return false;
      }
      Count(UserQuota, id, -quota);
      return true;
    }

    method IncreaseTokenQuota(id: int, quota: int) returns (ok: bool)
      requires Valid()
      modifies this`db, this`batchUpdateStores, this`rows
      ensures Valid() && Routed() && ok == (quota >= 0)
      ensures rows == if ok then AddTokenQuota(old(rows), id, quota) else old(rows)
    {
      hide QuotaStore.Valid, Added;
      if quota < 0 {
        return false;
      }
      Count(TokenQuota, id, quota);
      return true;
    }

    method DecreaseTokenQuota(id: int, quota: int) returns (ok: bool)
      requires Valid()
      modifies this`db, this`batchUpdateStores, this`rows
      ensures Valid() && Routed() && ok == (quota >= 0)
      ensures rows == if ok then AddTokenQuota(old(rows), id, -quota) else old(rows)
    {
      hide QuotaStore.Valid, Added;
      if quota < 0 {
        return false;
      }
      Count(TokenQuota, id, -quota);
      return true;
    }

    method UpdateUserUsedQuotaAndRequestCount(id: int, quota: int)
      requires Valid()
      modifies this`db, this`batchUpdateStores, this`rows
      ensures Valid() && Routed()
      ensures rows == AddRequestCount(AddUserUsedQuota(old(rows), id, quota), id, 1)
    {
      hide QuotaStore.Valid, Added;
      Count(UsedQuota, id, quota);
      Count(RequestCount, id, 1);
    }

    method UpdateChannelUsedQuota(id: int, quota: int)
      requires Valid()
      modifies this`db, this`batchUpdateStores, this`rows
      ensures Valid() && Routed()
      ensures rows == AddChannelUsedQuota(old(rows), id, quota)
    {
      hide QuotaStore.Valid, Added;
      Count(ChannelUsedQuota, id, quota);
    }

    /** The checks read the rows as they are, so with batching on they do not see buffered deltas. */
    method PreConsumeTokenQuota(tokenId: int, quota: int) returns (ok: bool)
      requires Valid()
      modifies this`db, this`batchUpdateStores, this`rows
      ensures Valid() && Routed() && ok == Affordable(old(db), tokenId, quota)
      ensures rows == if ok then Charge(old(rows), tokenId, quota) else old(rows)
    {
      if quota < 0 {
        return false;
      }
      if !TokenFound(db, tokenId) {
        return false;
      }
      var userId := db.owner[tokenId];
      if !Unlimited(db, tokenId) && Value(db.remainQuota, tokenId) < quota {
        return false;
      }
      if Value(db.userQuota, userId) < quota {
        return false;
      }
      if !Unlimited(db, tokenId) {
        var _ := DecreaseTokenQuota(tokenId, quota);
      }
      ok := DecreaseUserQuota(userId, quota);
    }

    /** A negative `quota` gives back. */
    method PostConsumeTokenQuota(tokenId: int, quota: int) returns (ok: bool)
      requires Valid()
      modifies this`db, this`batchUpdateStores, this`rows
      ensures Valid() && Routed() && ok == TokenFound(old(db), tokenId)
      ensures rows == Charge(old(rows), tokenId, quota)
    {
      if !TokenFound(db, tokenId) {
        return false;
      }
      var userId, unlimited := db.owner[tokenId], Unlimited(db, tokenId);
      ChargeUser(userId, quota);
      if !unlimited {
        ChargeToken(tokenId, quota);
      }
      return true;
    }

    method ChargeUser(userId: int, quota: int)
      requires Valid()
      modifies this`db, this`batchUpdateStores, this`rows
      ensures Valid() && Routed()
      ensures rows == AddUserQuota(old(rows), userId, -quota)
    {
      hide QuotaStore.Valid, Added;
      if quota > 0 {
        var _ := DecreaseUserQuota(userId, quota);
      } else {
        var _ := IncreaseUserQuota(userId, -quota);
      }
    }

    method ChargeToken(tokenId: int, quota: int)
      requires Valid()
      modifies this`db, this`batchUpdateStores, this`rows
      ensures Valid() && Routed()
      ensures rows == AddTokenQuota(old(rows), tokenId, -quota)
    {
      hide QuotaStore.Valid, Added;
      if quota > 0 {
        var _ := DecreaseTokenQuota(tokenId, quota);
      } else {
        var _ := IncreaseTokenQuota(tokenId, -quota);
      }
    }
  }

  // ---- Laws of charging ----

  lemma AddedTwice(column: Column, id: int, a: int, b: int)
    ensures Added(Added(column, id, a), id, b) == Added(column, id, a + b)
    ensures Added(column, id, 0) == column
  {
    SameMap(Added(Added(column, id, a), id, b), Added(column, id, a + b));
    SameMap(Added(column, id, 0), column);
  }

  /** Charges of one token add up; in particular a hold and its refund cancel. */
  lemma ChargesAddUp(db: Db, tokenId: int, a: int, b: int)
    ensures Charge(Charge(db, tokenId, a), tokenId, b) == Charge(db, tokenId, a + b)
  {
    hide Added;
    if TokenFound(db, tokenId) {
      var once, both := Charge(db, tokenId, a), Charge(db, tokenId, a + b);
      AddedTwice(db.userQuota, db.owner[tokenId], -a, -b);
      assert Added(once.userQuota, db.owner[tokenId], -b) == both.userQuota;
      if !Unlimited(db, tokenId) {
        AddedTwice(db.remainQuota, tokenId, -a, -b);
        AddedTwice(db.tokenUsedQuota, tokenId, -(-a), -(-b));
        assert Added(once.remainQuota, tokenId, -b) == both.remainQuota;
        assert Added(once.tokenUsedQuota, tokenId, -(-b)) == both.tokenUsedQuota;
      }
    }
  }

  lemma ChargeNothing(db: Db, tokenId: int)
    ensures Charge(db, tokenId, 0) == db
  {
    hide Added;
    if TokenFound(db, tokenId) {
      AddedTwice(db.userQuota, db.owner[tokenId], 0, 0);
      AddedTwice(db.remainQuota, tokenId, 0, 0);
      AddedTwice(db.tokenUsedQuota, tokenId, 0, 0);
    }
  }

  /** The columns of a charge, one by one. */
  lemma ChargedColumns(db: Db, tokenId: int, amount: int)
    ensures var (charged, found, limited) := (Charge(db, tokenId, amount), TokenFound(db, tokenId), !Unlimited(db, tokenId));
            && charged.userQuota == (if found then Added(db.userQuota, db.owner[tokenId], -amount) else db.userQuota)
            && charged.remainQuota == (if found && limited then Added(db.remainQuota, tokenId, -amount) else db.remainQuota)
            && charged.tokenUsedQuota == (if found && limited then Added(db.tokenUsedQuota, tokenId, -(-amount)) else db.tokenUsedQuota)
            && charged.owner == db.owner && charged.unlimited == db.unlimited
            && charged.userUsedQuota == db.userUsedQuota && charged.requestCount == db.requestCount
            && charged.channelUsedQuota == db.channelUsedQuota
  {
    hide Added;
  }

  lemma AddedValue(column: Column, id: int, value: int, row: int)
    ensures Value(Added(column, id, value), row) == Value(column, row) + if id == row && row in column then value else 0
  {
  }

  /** What a charge moves, account by account. */
  lemma ChargeMoves(db: Db, tokenId: int, quota: int, row: int)
    ensures var (charged, found) := (Charge(db, tokenId, quota), tokenId != 0 && tokenId in db.owner);
            var limited := found && !(tokenId in db.unlimited && db.unlimited[tokenId]);
            && Value(charged.userQuota, row)
               == Value(db.userQuota, row) - (if found && row == db.owner[tokenId] && row in db.userQuota then quota else 0)
            && Value(charged.remainQuota, row)
               == Value(db.remainQuota, row) - (if limited && row == tokenId && row in db.remainQuota then quota else 0)
            && Value(charged.tokenUsedQuota, row)
               == Value(db.tokenUsedQuota, row) + (if limited && row == tokenId && row in db.tokenUsedQuota then quota else 0)
            && charged.userUsedQuota == db.userUsedQuota && charged.requestCount == db.requestCount
            && charged.channelUsedQuota == db.channelUsedQuota
  {
    hide Added, Value, Charge;
    ChargedColumns(db, tokenId, quota);
    if TokenFound(db, tokenId) {
      AddedValue(db.userQuota, db.owner[tokenId], -quota, row);
      AddedValue(db.remainQuota, tokenId, -quota, row);
      AddedValue(db.tokenUsedQuota, tokenId, -(-quota), row);
    }
  }
}
