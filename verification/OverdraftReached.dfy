/**
  Runs in which requests go in step, all through their checks before any of them takes its hold.
  They overdraw an account by just as much as `Overdraft` allows.
 */
module OverdraftReached {
  import opened Database
  import opened Quota
  import opened Billing
  import opened Ledger
  import opened Overdraft

  const LEAVES := TextExit(NoAdaptor)

  function Pack(request: Request, n: nat): seq<Request> {
    seq(n, _ => request)
  }

  function ArriveAll(request: Request, n: nat): seq<Step> {
    seq(n, _ => Arrive(request.meta, request.audio, request.estimate))
  }

  /** Each of the first `n` requests takes one step. */
  function Sweep(n: nat): seq<Step> {
    seq(n, i requires 0 <= i < n => Advance(i, LEAVES))
  }

  /** Nothing that `Orderly` excludes. */
  ghost predicate Calm(requests: seq<Request>, n: nat, limit: nat) {
    |requests| <= n && forall i :: 0 <= i < |requests| ==> requests[i].estimate <= limit && !Surcharged(requests[i].phase)
  }

  lemma {:induction false} InFlightAtMostAll(db: Db, account: Account, requests: seq<Request>)
    ensures InFlight(db, account, requests) <= |requests|
  {
    if requests != [] {
      InFlightAtMostAll(db, account, requests[..|requests| - 1]);
    }
  }

  lemma OrderlyNext(db: Db, steps: seq<Step>, step: Step, account: Account, n: nat, limit: nat)
    requires Orderly(db, steps, account, n, limit)
    requires Calm(Next(Run(db, steps), step).requests, n, limit)
    ensures Run(db, steps + [step]) == Next(Run(db, steps), step)
    ensures Orderly(db, steps + [step], account, n, limit)
  {
    hide Next, InFlight;
    assert (steps + [step])[..|steps|] == steps;
    InFlightAtMostAll(db, account, Run(db, steps + [step]).requests);
  }

  lemma NothingYet(db: Db, account: Account, n: nat, limit: nat)
    ensures Run(db, []) == State(db, []) && Orderly(db, [], account, n, limit)
  {
    InFlightAtMostAll(db, account, []);
  }

  lemma OneArrives(db: Db, request: Request, k: nat, n: nat, limit: nat)
    requires request.phase == ReadBalance && k < n && request.estimate <= limit
    ensures Ledger.Next(State(db, Pack(request, k)), Arrive(request.meta, request.audio, request.estimate))
            == State(db, Pack(request, k + 1))
    ensures Calm(Pack(request, k + 1), n, limit)
  {
    hide Executed, Issued, Moved;
    assert Pack(request, k) + [request] == Pack(request, k + 1);
  }

  lemma {:induction false} AllArrive(db: Db, request: Request, k: nat, account: Account, n: nat, limit: nat)
    requires request.phase == ReadBalance && k <= n && request.estimate <= limit
    ensures var steps := ArriveAll(request, k);
            Run(db, steps) == State(db, Pack(request, k)) && Orderly(db, steps, account, n, limit)
  {
    hide Orderly, Run, Ledger.Next, Calm;
    if k == 0 {
      NothingYet(db, account, n, limit);
      assert Pack(request, 0) == [] && ArriveAll(request, 0) == [];
    } else {
      AllArrive(db, request, k - 1, account, n, limit);
      var step := Arrive(request.meta, request.audio, request.estimate);
      OneArrives(db, request, k - 1, n, limit);
      assert ArriveAll(request, k - 1) + [step] == ArriveAll(request, k);
      OrderlyNext(db, ArriveAll(request, k - 1), step, account, n, limit);
    }
  }

  /** The first `k` of `n` requests have moved on. */
  function Mixed(request: Request, next: Phase, k: nat, n: nat): seq<Request>
    requires k <= n
  {
    Pack(request.(phase := next), k) + Pack(request, n - k)
  }

  /** `dbs` are the databases after none, one, ... of the requests have moved from their phase to `next`. */
  ghost predicate Moves(dbs: seq<Db>, request: Request, next: Phase) {
    forall k :: 0 <= k < |dbs| - 1 ==>
      dbs[k + 1] == Executed(dbs[k], Issued(dbs[k], request)) && Moved(dbs[k], request, LEAVES) == next
  }

  lemma MixedNext(db: Db, request: Request, next: Phase, k: nat, n: nat)
    requires k < n && Moved(db, request, LEAVES) == next
    ensures Ledger.Next(State(db, Mixed(request, next, k, n)), Advance(k, LEAVES))
            == State(Executed(db, Issued(db, request)), Mixed(request, next, k + 1, n))
  {
    hide Executed, Issued, Moved;
    var (requests, moved) := (Mixed(request, next, k, n), request.(phase := next));
    assert requests[k] == request;
    assert requests[k := moved] == Mixed(request, next, k + 1, n);
  }

  lemma MixedCalm(request: Request, next: Phase, k: nat, n: nat, limit: nat)
    requires k <= n && request.estimate <= limit && !Surcharged(request.phase) && !Surcharged(next)
    ensures Calm(Mixed(request, next, k, n), n, limit)
  {
  }

  lemma {:induction false} Swept(db: Db, steps: seq<Step>, dbs: seq<Db>, request: Request, next: Phase, k: nat,
                                 account: Account, n: nat, limit: nat)
    requires k <= n && |dbs| == n + 1 && Moves(dbs, request, next)
    requires request.estimate <= limit && !Surcharged(request.phase) && !Surcharged(next)
    requires Run(db, steps) == State(dbs[0], Pack(request, n)) && Orderly(db, steps, account, n, limit)
    ensures Run(db, steps + Sweep(k)) == State(dbs[k], Mixed(request, next, k, n))
    ensures Orderly(db, steps + Sweep(k), account, n, limit)
  {
    hide Run, Orderly, Executed, Issued, Moved, Ledger.Next, Calm;
    if k == 0 {
      assert steps + Sweep(0) == steps;
      assert Mixed(request, next, 0, n) == Pack(request, n);
    } else {
      Swept(db, steps, dbs, request, next, k - 1, account, n, limit);
      MixedNext(dbs[k - 1], request, next, k - 1, n);
      MixedCalm(request, next, k, n, limit);
      OrderlyNext(db, steps + Sweep(k - 1), Advance(k - 1, LEAVES), account, n, limit);
      assert steps + Sweep(k - 1) + [Advance(k - 1, LEAVES)] == steps + Sweep(k);
    }
  }

  /** All requests move on, and the databases tell what they did. */
  lemma AllSwept(db: Db, steps: seq<Step>, dbs: seq<Db>, request: Request, next: Phase, account: Account, n: nat, limit: nat)
    requires |dbs| == n + 1 && Moves(dbs, request, next)
    requires request.estimate <= limit && !Surcharged(request.phase) && !Surcharged(next)
    requires Run(db, steps) == State(dbs[0], Pack(request, n)) && Orderly(db, steps, account, n, limit)
    ensures Run(db, steps + Sweep(n)) == State(dbs[n], Pack(request.(phase := next), n))
    ensures Orderly(db, steps + Sweep(n), account, n, limit)
  {
    hide Run, Orderly, Moves;
    Swept(db, steps, dbs, request, next, n, account, n, limit);
    assert Mixed(request, next, n, n) == Pack(request.(phase := next), n);
  }

  /** A sweep of checks, which write nothing. */
  lemma AllChecked(db: Db, steps: seq<Step>, request: Request, next: Phase, account: Account, n: nat, limit: nat)
    requires Issued(db, request) == NoStatement && Moved(db, request, LEAVES) == next
    requires request.estimate <= limit && !Surcharged(request.phase) && !Surcharged(next)
    requires Run(db, steps) == State(db, Pack(request, n)) && Orderly(db, steps, account, n, limit)
    ensures Run(db, steps + Sweep(n)) == State(db, Pack(request.(phase := next), n))
    ensures Orderly(db, steps + Sweep(n), account, n, limit)
  {
    hide Run, Orderly, Issued, Moved;
    AllSwept(db, steps, seq(n + 1, _ => db), request, next, account, n, limit);
  }

  /** The checks that all requests pass on a balance of exactly one hold, or a bit more. */
  ghost predicate Passes(db: Db, request: Request) {
    var (meta, hold) := (request.meta, request.estimate);
    && request.phase == ReadBalance && hold >= 1
    && TokenFound(db, meta.tokenId) && db.owner[meta.tokenId] == meta.userId
    && hold <= Value(db.userQuota, meta.userId) <= 100 * hold
    && (Limited(db, meta.tokenId) ==> Value(db.remainQuota, meta.tokenId) >= hold)
  }

  lemma {:induction false} AllApproved(db: Db, request: Request, account: Account, n: nat, limit: nat) returns (steps: seq<Step>)
    requires Passes(db, request) && request.estimate <= limit
    ensures Run(db, steps) == State(db, Pack(request.(phase := TakeToken(request.estimate)), n))
    ensures Orderly(db, steps, account, n, limit)
  {
    hide Run, Orderly;
    var hold := request.estimate;
    steps := ArriveAll(request, n);
    AllArrive(db, request, n, account, n, limit);
    AllChecked(db, steps, request, ReadToken(hold), account, n, limit);
    steps := steps + Sweep(n);
    AllChecked(db, steps, request.(phase := ReadToken(hold)), ReadUser(hold), account, n, limit);
    steps := steps + Sweep(n);
    AllChecked(db, steps, request.(phase := ReadUser(hold)), TakeToken(hold), account, n, limit);
    steps := steps + Sweep(n);
  }

  /** The database after `k` holds were taken from a user. */
  function UserTaken(db: Db, userId: int, hold: nat, k: nat): Db {
    AddUserQuota(db, userId, 0 - k * hold)
  }

  function TokenTaken(db: Db, tokenId: int, hold: nat, k: nat): Db {
    AddTokenQuota(db, tokenId, 0 - k * hold)
  }

  function UserTakings(db: Db, userId: int, hold: nat, n: nat): seq<Db> {
    seq(n + 1, k requires 0 <= k <= n => UserTaken(db, userId, hold, k))
  }

  function TokenTakings(db: Db, tokenId: int, hold: nat, n: nat): seq<Db> {
    seq(n + 1, k requires 0 <= k <= n => TokenTaken(db, tokenId, hold, k))
  }

  lemma OneMoreTaken(db: Db, id: int, hold: nat, k: nat)
    ensures AddUserQuota(UserTaken(db, id, hold, k), id, 0 - hold) == UserTaken(db, id, hold, k + 1)
    ensures AddTokenQuota(TokenTaken(db, id, hold, k), id, 0 - hold) == TokenTaken(db, id, hold, k + 1)
    ensures UserTaken(db, id, hold, 0) == db == TokenTaken(db, id, hold, 0)
  {
    assert (k + 1) * hold == k * hold + hold;
    hide Added;
    AddedTwice(db.userQuota, id, 0 - k * hold, 0 - hold);
    AddedTwice(db.remainQuota, id, 0 - k * hold, 0 - hold);
    AddedTwice(db.tokenUsedQuota, id, -(0 - k * hold), -(0 - hold));
  }

  /** For every `n` the bound is met: that many requests overdraw a user by n - 1 holds. */
  lemma UserOverdraftReached(db: Db, meta: Meta, hold: nat, n: nat) returns (steps: seq<Step>)
    requires hold >= 1 && n >= 1 && TokenFound(db, meta.tokenId) && Unlimited(db, meta.tokenId)
    requires db.owner[meta.tokenId] == meta.userId && meta.userId in db.userQuota && db.userQuota[meta.userId] == hold
    ensures Orderly(db, steps, UserAccount(meta.userId), n, hold)
    ensures Balance(Run(db, steps).db, UserAccount(meta.userId)) == -(n - 1) * hold
  {
    hide Run, Orderly, Moves;
    var account := UserAccount(meta.userId);
    var request := Request(meta, false, hold, ReadBalance);
    steps := AllApproved(db, request, account, n, hold);
    AllChecked(db, steps, request.(phase := TakeToken(hold)), TakeUser(hold), account, n, hold);
    steps := steps + Sweep(n);
    var dbs := UserTakings(db, meta.userId, hold, n);
    UserMoves(db, request.(phase := TakeUser(hold)), hold, n);
    OneMoreTaken(db, meta.userId, hold, 0);
    AllSwept(db, steps, dbs, request.(phase := TakeUser(hold)), Await(hold), account, n, hold);
    steps := steps + Sweep(n);
    assert hold - n * hold == -(n - 1) * hold;
  }

  lemma UserMoves(db: Db, request: Request, hold: nat, n: nat)
    requires request.phase == TakeUser(hold)
    requires TokenFound(db, request.meta.tokenId) && db.owner[request.meta.tokenId] == request.meta.userId
    ensures Moves(UserTakings(db, request.meta.userId, hold, n), request, Await(hold))
  {
    forall k | 0 <= k < n
      ensures var was := UserTaken(db, request.meta.userId, hold, k);
              UserTaken(db, request.meta.userId, hold, k + 1) == Executed(was, Issued(was, request))
    {
      OneMoreTaken(db, request.meta.userId, hold, k);
    }
  }

  /** The same for a limited token, when the balance of its owner lets the requests pass. */
  lemma TokenOverdraftReached(db: Db, meta: Meta, hold: nat, n: nat) returns (steps: seq<Step>)
    requires hold >= 1 && n >= 1 && Limited(db, meta.tokenId)
    requires meta.tokenId in db.remainQuota && db.remainQuota[meta.tokenId] == hold
    requires db.owner[meta.tokenId] == meta.userId && hold <= Value(db.userQuota, meta.userId) <= 100 * hold
    ensures Orderly(db, steps, TokenAccount(meta.tokenId), n, hold)
    ensures Balance(Run(db, steps).db, TokenAccount(meta.tokenId)) == -(n - 1) * hold
  {
    hide Run, Orderly, Moves;
    var account := TokenAccount(meta.tokenId);
    var request := Request(meta, false, hold, ReadBalance);
    steps := AllApproved(db, request, account, n, hold);
    var dbs := TokenTakings(db, meta.tokenId, hold, n);
    TokenMoves(db, request.(phase := TakeToken(hold)), hold, n);
    OneMoreTaken(db, meta.tokenId, hold, 0);
    AllSwept(db, steps, dbs, request.(phase := TakeToken(hold)), TakeUser(hold), account, n, hold);
    steps := steps + Sweep(n);
    assert hold - n * hold == -(n - 1) * hold;
  }

  lemma TokenMoves(db: Db, request: Request, hold: nat, n: nat)
    requires request.phase == TakeToken(hold) && Limited(db, request.meta.tokenId)
    ensures Moves(TokenTakings(db, request.meta.tokenId, hold, n), request, TakeUser(hold))
  {
    forall k | 0 <= k < n
      ensures var was := TokenTaken(db, request.meta.tokenId, hold, k);
              TokenTaken(db, request.meta.tokenId, hold, k + 1) == Executed(was, Issued(was, request))
    {
      OneMoreTaken(db, request.meta.tokenId, hold, k);
    }
  }

  // ---- When nothing can be overdrawn ----

  /** No orderly run, from any database, overdraws an account that starts non-negative. */
  ghost predicate NeverOverdrawn(account: Account, n: nat, limit: nat) {
    forall db, steps ::
      Present(db, account) && Balance(db, account) >= 0 && Orderly(db, steps, account, n, limit) ==>
        Balance(Run(db, steps).db, account) >= 0
  }

  /** A database with one user, who has one token. */
  function Small(userId: int, tokenId: int, unlimited: bool, quota: int): Db {
    Db(map[userId := quota], map[], map[], map[tokenId := quota], map[tokenId := 0],
       map[tokenId := userId], map[tokenId := unlimited], map[])
  }

  lemma BoundHolds(account: Account, n: nat, limit: nat)
    requires n >= 1 && Guarded(account) && (n == 1 || limit == 0)
    ensures NeverOverdrawn(account, n, limit)
  {
    forall db, steps | Present(db, account) && Balance(db, account) >= 0 && Orderly(db, steps, account, n, limit)
      ensures Balance(Run(db, steps).db, account) >= 0
    {
      OverdraftBounded(db, steps, account, n, limit);
      assert -(n - 1) * limit == 0;
    }
  }

  /** A user is safe exactly with one request at a time, or with nothing to hold. */
  lemma UserNeverOverdrawnIff(userId: int, n: nat, limit: nat)
    requires n >= 1
    ensures NeverOverdrawn(UserAccount(userId), n, limit) <==> n == 1 || limit == 0
  {
    if n == 1 || limit == 0 {
      BoundHolds(UserAccount(userId), n, limit);
    } else {
      var db := Small(userId, 1, true, limit);
      var steps := UserOverdraftReached(db, Meta(userId, 1, 0, 0.0, 0.0), limit, n);
      NegativeProduct(n - 1, limit);
      hide Orderly, Run;
      assert Present(db, UserAccount(userId)) && Balance(db, UserAccount(userId)) >= 0;
    }
  }

  lemma NegativeProduct(m: nat, limit: nat)
    requires m >= 1 && limit >= 1
    ensures (0 - m) * limit < 0
  {
  }

  /** A token is safe exactly with one request at a time, or with nothing to hold; id 0 is no token. */
  lemma TokenNeverOverdrawnIff(tokenId: int, n: nat, limit: nat)
    requires n >= 1 && tokenId != 0
    ensures NeverOverdrawn(TokenAccount(tokenId), n, limit) <==> n == 1 || limit == 0
  {
    if n == 1 || limit == 0 {
      BoundHolds(TokenAccount(tokenId), n, limit);
    } else {
      var db := Small(1, tokenId, false, limit);
      var steps := TokenOverdraftReached(db, Meta(1, tokenId, 0, 0.0, 0.0), limit, n);
      NegativeProduct(n - 1, limit);
      hide Orderly, Run;
      assert Present(db, TokenAccount(tokenId)) && Balance(db, TokenAccount(tokenId)) >= 0;
    }
  }
}
