/**
  How far concurrent requests can overdraw an account: the check of a balance and the statement
  that takes from it are separate steps, and other requests run in between.
 */
module Overdraft {
  import opened Wrappers
  import opened Database
  import opened Quota
  import Pricing
  import opened Ledger

  /** What a request has been approved to take from an account and has not taken yet. */
  function Reserved(db: Db, account: Account, request: Request): Option<nat> {
    var tokenId := request.meta.tokenId;
    match (account, request.phase)
    case (UserAccount(id), TakeToken(hold)) => if TokenFound(db, tokenId) && db.owner[tokenId] == id then Some(hold) else None
    case (UserAccount(id), TakeUser(hold)) => if TokenFound(db, tokenId) && db.owner[tokenId] == id then Some(hold) else None
    case (TokenAccount(id), ReadUser(hold)) => if Limited(db, tokenId) && tokenId == id then Some(hold) else None
    case (TokenAccount(id), TakeToken(hold)) => if Limited(db, tokenId) && tokenId == id then Some(hold) else None
    case _ => None
  }

  /** How many requests are between their check of an account and their statement on it. */
  function InFlight(db: Db, account: Account, requests: seq<Request>): nat {
    if requests == [] then 0
    else InFlight(db, account, requests[..|requests| - 1])
         + if Reserved(db, account, requests[|requests| - 1]).Some? then 1 else 0
  }

  function Amount(reserved: Option<nat>): nat {
    if reserved.Some? then reserved.value else 0
  }

  function AllReserved(db: Db, account: Account, requests: seq<Request>): nat {
    if requests == [] then 0
    else AllReserved(db, account, requests[..|requests| - 1]) + Amount(Reserved(db, account, requests[|requests| - 1]))
  }

  lemma {:induction false} AfterUpdate(db: Db, account: Account, requests: seq<Request>, index: nat, request: Request)
    requires index < |requests|
    ensures AllReserved(db, account, requests[index := request])
            == AllReserved(db, account, requests) - Amount(Reserved(db, account, requests[index]))
               + Amount(Reserved(db, account, request))
    ensures InFlight(db, account, requests[index := request])
            == InFlight(db, account, requests) - (if Reserved(db, account, requests[index]).Some? then 1 else 0)
               + (if Reserved(db, account, request).Some? then 1 else 0)
  {
    hide Reserved;
    var n := |requests| - 1;
    var changed := requests[index := request];
    if index < n {
      AfterUpdate(db, account, requests[..n], index, request);
      assert changed[..n] == requests[..n][index := request];
    } else {
      assert changed[..n] == requests[..n];
    }
  }

  lemma SameReserved(a: Db, b: Db, account: Account, request: Request)
    requires SameTokens(a, b)
    ensures Reserved(a, account, request) == Reserved(b, account, request)
  {
  }

  lemma {:induction false} DependsOnTokens(a: Db, b: Db, account: Account, requests: seq<Request>)
    requires SameTokens(a, b)
    ensures AllReserved(a, account, requests) == AllReserved(b, account, requests)
    ensures InFlight(a, account, requests) == InFlight(b, account, requests)
  {
    if requests != [] {
      SameReserved(a, b, account, requests[|requests| - 1]);
      hide Reserved;
      DependsOnTokens(a, b, account, requests[..|requests| - 1]);
    }
  }

  /** The hold a request carries is no larger than its estimate. */
  predicate Fits(request: Request) {
    match request.phase
    case ReadToken(hold) => hold <= request.estimate
    case ReadUser(hold) => hold <= request.estimate
    case TakeToken(hold) => hold <= request.estimate
    case TakeUser(hold) => hold <= request.estimate
    case _ => true
  }

  ghost predicate AtMost(requests: seq<Request>, limit: nat) {
    forall i :: 0 <= i < |requests| ==> requests[i].estimate <= limit && Fits(requests[i])
  }

  lemma {:induction false} ReservedAtMost(db: Db, account: Account, requests: seq<Request>, limit: nat)
    requires AtMost(requests, limit)
    ensures AllReserved(db, account, requests) <= InFlight(db, account, requests) * limit
  {
    if requests != [] {
      var before, last := requests[..|requests| - 1], requests[|requests| - 1];
      ReservedAtMost(db, account, before, limit);
      assert Amount(Reserved(db, account, last)) <= limit by {
        assert Fits(last);
      }
      if Reserved(db, account, last).Some? {
        assert (InFlight(db, account, before) + 1) * limit == InFlight(db, account, before) * limit + limit;
      }
    }
  }

  /** No request is about to be charged more than it holds. */
  ghost predicate NoSurcharge(requests: seq<Request>) {
    forall i :: 0 <= i < |requests| ==> !Surcharged(requests[i].phase)
  }

  predicate Surcharged(phase: Phase) {
    match phase
    case ChargeUser(hold, price) => price > hold
    case ChargeToken(hold, price) => price > hold
    case _ => false
  }

  predicate Guarded(account: Account) {
    account.UserAccount? || account.TokenAccount?
  }

  /** A request reserves only what it has just seen in the account, and takes only what it reserved. */
  lemma AdvanceKeepsMargin(db: Db, request: Request, exit: Exit, account: Account)
    requires Guarded(account) && !Surcharged(request.phase)
    ensures var (was, now) := (Reserved(db, account, request),
                               Reserved(db, account, request.(phase := Moved(db, request, exit))));
            if was.None? && now.Some?
            then Impact(Issued(db, request), account) == 0 && Balance(db, account) >= now.value
            else Impact(Issued(db, request), account) >= Amount(now) - Amount(was)
  {
    hide AfterAwait, Value;
    if request.phase.Await? {
      AwaitReservesNothing(db, request, request.phase.hold, exit, account);
    }
  }

  lemma AwaitReservesNothing(db: Db, request: Request, hold: nat, exit: Exit, account: Account)
    ensures Reserved(db, account, request.(phase := AfterAwait(request, hold, exit))).None?
  {
    hide Pricing.Price;
  }

  lemma AdvanceFits(db: Db, request: Request, exit: Exit)
    requires Fits(request)
    ensures Fits(request.(phase := Moved(db, request, exit)))
  {
    hide Pricing.Price;
  }

  /**
    The runs the bound is about: never more than `n` requests between check and statement on the
    account, no estimate above `limit`, and no request charged beyond its hold.
   */
  ghost predicate Orderly(db: Db, steps: seq<Step>, account: Account, n: nat, limit: nat) {
    var requests := Run(db, steps).requests;
    && InFlight(db, account, requests) <= n
    && NoSurcharge(requests)
    && (forall i :: 0 <= i < |requests| ==> requests[i].estimate <= limit)
    && (steps != [] ==> Orderly(db, steps[..|steps| - 1], account, n, limit))
  }

  ghost function Margin(db: Db, s: State, account: Account): int {
    Balance(s.db, account) - AllReserved(db, account, s.requests)
  }

  lemma FewerReserveLess(few: nat, many: nat, limit: nat)
    requires few <= many
    ensures few * limit <= many * limit
  {
  }

  lemma NextKeepsMargin(db: Db, s: State, index: nat, exit: Exit, account: Account, n: nat, limit: nat)
    requires Guarded(account) && Present(s.db, account) && SameTokens(db, s.db) && index < |s.requests| && n >= 1
    requires NoSurcharge(s.requests) && AtMost(s.requests, limit)
    requires InFlight(db, account, Next(s, Advance(index, exit)).requests) <= n
    requires Margin(db, s, account) >= -(n - 1) * limit
    ensures Margin(db, Next(s, Advance(index, exit)), account) >= -(n - 1) * limit
  {
    hide Reserved, Executed, Issued, Moved, Balance, Present, SameTokens, Impact, InFlight, AllReserved, AtMost;
    var floor := -(n - 1) * limit;
    var request := s.requests[index];
    var moved := request.(phase := Moved(s.db, request, exit));
    assert !Surcharged(request.phase);
    AdvanceKeepsMargin(s.db, request, exit, account);
    ExecutedMoves(s.db, Issued(s.db, request), account);
    AfterUpdate(s.db, account, s.requests, index, moved);
    DependsOnTokens(db, s.db, account, s.requests);
    DependsOnTokens(db, s.db, account, s.requests[index := moved]);
    if Reserved(s.db, account, request).None? && Reserved(s.db, account, moved).Some? {
      ReservedAtMost(s.db, account, s.requests, limit);
      FewerReserveLess(InFlight(s.db, account, s.requests), n - 1, limit);
    }
  }

  lemma OneMoreReserved(db: Db, account: Account, requests: seq<Request>, request: Request)
    ensures AllReserved(db, account, requests + [request])
            == AllReserved(db, account, requests) + Amount(Reserved(db, account, request))
  {
    hide Reserved;
    assert (requests + [request])[..|requests|] == requests;
  }

  lemma OneMoreAtMost(requests: seq<Request>, request: Request, limit: nat)
    requires AtMost(requests, limit) && request.estimate <= limit && Fits(request)
    ensures AtMost(requests + [request], limit)
  {
    hide Fits;
  }

  lemma ArrivalKeepsMargin(db: Db, s: State, step: Step, account: Account, limit: nat)
    requires step.Arrive? && AtMost(s.requests, limit) && step.estimate <= limit
    ensures AtMost(Next(s, step).requests, limit)
    ensures Margin(db, Next(s, step), account) == Margin(db, s, account)
  {
    hide Executed, Issued, Moved, AllReserved, AtMost, Balance;
    var request := Request(step.meta, step.audio, step.estimate, ReadBalance);
    OneMoreReserved(db, account, s.requests, request);
    OneMoreAtMost(s.requests, request, limit);
    assert Reserved(db, account, request).None?;
  }

  lemma TopUpKeepsMargin(db: Db, s: State, step: Step, account: Account)
    requires step.TopUp? && Present(s.db, account)
    ensures Margin(db, Next(s, step), account) >= Margin(db, s, account)
  {
    hide Executed, Issued, Moved, AllReserved;
  }

  lemma AdvanceAtMost(s: State, index: nat, exit: Exit, limit: nat)
    requires index < |s.requests| && AtMost(s.requests, limit)
    ensures AtMost(Next(s, Advance(index, exit)).requests, limit)
  {
    hide Moved, Executed, Issued;
    assert Fits(s.requests[index]);
    AdvanceFits(s.db, s.requests[index], exit);
  }

  lemma {:induction false} MarginKept(db: Db, steps: seq<Step>, account: Account, n: nat, limit: nat)
    requires n >= 1 && Guarded(account) && Present(db, account) && Balance(db, account) >= 0
    requires Orderly(db, steps, account, n, limit)
    ensures AtMost(Run(db, steps).requests, limit)
    ensures Margin(db, Run(db, steps), account) >= -(n - 1) * limit
  {
    if steps == [] {
      BelowZero(n, limit);
    } else {
      var before, last := Run(db, steps[..|steps| - 1]), steps[|steps| - 1];
      MarginKept(db, steps[..|steps| - 1], account, n, limit);
      BalancesFollowPhases(db, steps[..|steps| - 1], account);
      hide Margin, AtMost, Balance, Present, SameTokens, Next;
      match last {
        case Arrive(_, _, estimate) =>
          assert estimate <= limit by {
            ArrivedEstimate(before, last);
          }
          ArrivalKeepsMargin(db, before, last, account, limit);
        case TopUp(_, _) =>
          TopUpKeepsMargin(db, before, last, account);
          SameRequests(before, last);
        case Advance(index, exit) =>
          if index < |before.requests| {
            AdvanceAtMost(before, index, exit, limit);
            NextKeepsMargin(db, before, index, exit, account, n, limit);
          } else {
            SameRequests(before, last);
          }
      }
    }
  }

  lemma BelowZero(n: nat, limit: nat)
    requires n >= 1
    ensures -(n - 1) * limit <= 0
  {
  }

  lemma ArrivedEstimate(s: State, step: Step)
    requires step.Arrive?
    ensures |Next(s, step).requests| == |s.requests| + 1
    ensures Next(s, step).requests[|s.requests|].estimate == step.estimate
  {
  }

  lemma SameRequests(s: State, step: Step)
    requires !step.Arrive? && (step.Advance? ==> step.index >= |s.requests|)
    ensures Next(s, step).requests == s.requests
    ensures step.Advance? ==> Next(s, step) == s
  {
  }

  /** With `n` requests in flight an account that starts non-negative is overdrawn by at most n - 1 holds. */
  lemma OverdraftBounded(db: Db, steps: seq<Step>, account: Account, n: nat, limit: nat)
    requires n >= 1 && Guarded(account) && Present(db, account) && Balance(db, account) >= 0
    requires Orderly(db, steps, account, n, limit)
    ensures Balance(Run(db, steps).db, account) >= -(n - 1) * limit
  {
    MarginKept(db, steps, account, n, limit);
  }
}
