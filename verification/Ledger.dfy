/**
  Any number of relayed requests in flight at once.  Each request is a small step machine whose
  steps are single database statements; a run interleaves the steps of all requests, and top-ups,
  in any order.  Batching is off.
 */
module Ledger {
  import opened Wrappers
  import opened Database
  import Pricing
  import opened Quota
  import opened Billing

  /** Where a request stands: the step named is the one it takes next. */
  datatype Phase =
    | ReadBalance
    | ReadToken(hold: nat)
    | ReadUser(hold: nat)
    | TakeToken(hold: nat)
    | TakeUser(hold: nat)
    | Await(hold: nat)
    | ReturnUser(hold: nat)
    | ReturnToken(hold: nat)
    | ChargeUser(hold: nat, price: int)
    | ChargeToken(hold: nat, price: int)
    | BookUser(price: int)
    | BookChannel(price: int)
    | Finished(outcome: Outcome)

  /** How the upstream call of a request ends. */
  datatype Exit = TextExit(text: Billing.TextExit) | AudioExit(audio: Billing.AudioExit)

  datatype Request = Request(meta: Meta, audio: bool, estimate: nat, phase: Phase)

  datatype Step =
    | Arrive(meta: Meta, audio: bool, estimate: nat)
    | TopUp(userId: int, amount: nat)
    | Advance(index: nat, exit: Exit)

  datatype State = State(db: Db, requests: seq<Request>)

  /** The phase that follows the upstream call; an exit of the wrong kind is no exit. */
  function AfterAwait(request: Request, hold: nat, exit: Exit): Phase {
    if request.audio then
      match exit
      case AudioExit(Heard(quota)) => ChargeUser(hold, quota)
      case AudioExit(Failed) => if hold > 0 then ReturnUser(hold) else Finished(Refunded)
      case TextExit(_) => Await(hold)
    else
      match exit
      case TextExit(text) =>
        (match TextOutcome(request.meta, hold, text)
         case Settled(price) => ChargeUser(hold, price)
         case Refunded => if hold != 0 then ReturnUser(hold) else Finished(Refunded)
         case outcome => Finished(outcome))
      case AudioExit(_) => Await(hold)
  }

  /** The database statements that requests send; each is atomic. */
  datatype Statement =
    | NoStatement
    | AddToUser(userId: int, amount: int)
    | AddToToken(tokenId: int, amount: int)
    | BookToUser(userId: int, price: int)
    | BookToChannel(channelId: int, price: int)

  function Executed(db: Db, statement: Statement): Db {
    match statement
    case NoStatement => db
    case AddToUser(userId, amount) => AddUserQuota(db, userId, amount)
    case AddToToken(tokenId, amount) => AddTokenQuota(db, tokenId, amount)
    case BookToUser(userId, price) => AddRequestCount(AddUserUsedQuota(db, userId, price), userId, 1)
    case BookToChannel(channelId, price) => AddChannelUsedQuota(db, channelId, price)
  }

  function ForOwner(db: Db, tokenId: int, amount: int): Statement {
    if TokenFound(db, tokenId) then AddToUser(db.owner[tokenId], amount) else NoStatement
  }

  predicate Limited(db: Db, tokenId: int) {
    TokenFound(db, tokenId) && !Unlimited(db, tokenId)
  }

  function ForToken(db: Db, tokenId: int, amount: int): Statement {
    if Limited(db, tokenId) then AddToToken(tokenId, amount) else NoStatement
  }

  /** Audio requests that consumed nothing are not booked. */
  predicate SkipsBooking(request: Request, price: int) {
    request.audio && price == 0
  }

  /** The statement a request sends next. */
  function Issued(db: Db, request: Request): Statement {
    var meta := request.meta;
    match request.phase
    case TakeToken(hold) => ForToken(db, meta.tokenId, 0 - hold)
    case TakeUser(hold) => ForOwner(db, meta.tokenId, 0 - hold)
    case ReturnUser(hold) => ForOwner(db, meta.tokenId, hold)
    case ReturnToken(hold) => ForToken(db, meta.tokenId, hold)
    case ChargeUser(hold, price) => ForOwner(db, meta.tokenId, hold - price)
    case ChargeToken(hold, price) => ForToken(db, meta.tokenId, hold - price)
    case BookUser(price) => if SkipsBooking(request, price) then NoStatement else BookToUser(meta.userId, price)
    case BookChannel(price) => if SkipsBooking(request, price) then NoStatement else BookToChannel(meta.channelId, price)
    case _ => NoStatement
  }

  /** The phase a request moves to, by what it reads and by how its upstream call ends. */
  function Moved(db: Db, request: Request, exit: Exit): Phase {
    var tokenId := request.meta.tokenId;
    match request.phase
    case ReadBalance =>
      var balance := Value(db.userQuota, request.meta.userId);
      var hold := if balance > 100 * request.estimate then 0 else request.estimate;
      if balance - request.estimate < 0 then Finished(Rejected)
      else if hold > 0 then ReadToken(hold) else Await(hold)
    case ReadToken(hold) =>
      if !TokenFound(db, tokenId) || (Limited(db, tokenId) && Value(db.remainQuota, tokenId) < hold)
      then Finished(Rejected) else ReadUser(hold)
    case ReadUser(hold) =>
      if !TokenFound(db, tokenId) || Value(db.userQuota, db.owner[tokenId]) < hold
      then Finished(Rejected) else TakeToken(hold)
    case TakeToken(hold) => TakeUser(hold)
    case TakeUser(hold) => Await(hold)
    case Await(hold) => AfterAwait(request, hold, exit)
    case ReturnUser(hold) => ReturnToken(hold)
    case ReturnToken(_) => Finished(Refunded)
    case ChargeUser(hold, price) => ChargeToken(hold, price)
    case ChargeToken(_, price) => BookUser(price)
    case BookUser(price) => BookChannel(price)
    case BookChannel(price) => Finished(Settled(price))
    case Finished(_) => request.phase
  }

  function Next(s: State, step: Step): State {
    match step
    case Arrive(meta, audio, estimate) => s.(requests := s.requests + [Request(meta, audio, estimate, ReadBalance)])
    case TopUp(userId, amount) => s.(db := AddUserQuota(s.db, userId, amount))
    case Advance(index, exit) =>
      if index < |s.requests| then
        var request := s.requests[index];
        State(Executed(s.db, Issued(s.db, request)),
              s.requests[index := request.(phase := Moved(s.db, request, exit))])
      else s
  }

  function Run(db: Db, steps: seq<Step>): State {
    if steps == [] then State(db, []) else Next(Run(db, steps[..|steps| - 1]), steps[|steps| - 1])
  }

  // ---- What every request has done to every account ----

  datatype Account =
    | UserAccount(userId: int)
    | UsedAccount(userId: int)
    | CountAccount(userId: int)
    | TokenAccount(tokenId: int)
    | TokenUsedAccount(tokenId: int)
    | ChannelAccount(channelId: int)

  function ColumnOf(db: Db, account: Account): Column {
    match account
    case UserAccount(_) => db.userQuota
    case UsedAccount(_) => db.userUsedQuota
    case CountAccount(_) => db.requestCount
    case TokenAccount(_) => db.remainQuota
    case TokenUsedAccount(_) => db.tokenUsedQuota
    case ChannelAccount(_) => db.channelUsedQuota
  }

  function RowOf(account: Account): int {
    match account
    case UserAccount(id) => id
    case UsedAccount(id) => id
    case CountAccount(id) => id
    case TokenAccount(id) => id
    case TokenUsedAccount(id) => id
    case ChannelAccount(id) => id
  }

  predicate Present(db: Db, account: Account) {
    RowOf(account) in ColumnOf(db, account)
  }

  function Balance(db: Db, account: Account): int {
    Value(ColumnOf(db, account), RowOf(account))
  }

  /** What a request has taken from the balance of its user so far. */
  function TakenFromUser(phase: Phase): int {
    match phase
    case Await(hold) => hold
    case ReturnUser(hold) => hold
    case ChargeUser(hold, _) => hold
    case ChargeToken(_, price) => price
    case BookUser(price) => price
    case BookChannel(price) => price
    case Finished(Kept(hold)) => hold
    case Finished(Settled(price)) => price
    case _ => 0
  }

  /** What a request has taken from a limited token so far. */
  function TakenFromToken(phase: Phase): int {
    match phase
    case TakeUser(hold) => hold
    case Await(hold) => hold
    case ReturnUser(hold) => hold
    case ReturnToken(hold) => hold
    case ChargeUser(hold, _) => hold
    case ChargeToken(hold, _) => hold
    case BookUser(price) => price
    case BookChannel(price) => price
    case Finished(Kept(hold)) => hold
    case Finished(Settled(price)) => price
    case _ => 0
  }

  function BookedToUser(phase: Phase): int {
    match phase
    case BookChannel(price) => price
    case Finished(Settled(price)) => price
    case _ => 0
  }

  function BookedToChannel(phase: Phase): int {
    match phase
    case Finished(Settled(price)) => price
    case _ => 0
  }

  function Counted(request: Request): int {
    match request.phase
    case BookChannel(price) => if SkipsBooking(request, price) then 0 else 1
    case Finished(Settled(price)) => if SkipsBooking(request, price) then 0 else 1
    case _ => 0
  }

  /** The share of one request in the balance of an account. */
  function Share(db: Db, account: Account, request: Request): int {
    var meta := request.meta;
    var limited := Limited(db, meta.tokenId);
    match account
    case UserAccount(id) => if TokenFound(db, meta.tokenId) && db.owner[meta.tokenId] == id then -TakenFromUser(request.phase) else 0
    case UsedAccount(id) => if meta.userId == id then BookedToUser(request.phase) else 0
    case CountAccount(id) => if meta.userId == id then Counted(request) else 0
    case TokenAccount(id) => if limited && meta.tokenId == id then -TakenFromToken(request.phase) else 0
    case TokenUsedAccount(id) => if limited && meta.tokenId == id then TakenFromToken(request.phase) else 0
    case ChannelAccount(id) => if meta.channelId == id then BookedToChannel(request.phase) else 0
  }

  function Shares(db: Db, account: Account, requests: seq<Request>): int {
    if requests == [] then 0
    else Shares(db, account, requests[..|requests| - 1]) + Share(db, account, requests[|requests| - 1])
  }

  lemma {:induction false} SharesAfterUpdate(db: Db, account: Account, requests: seq<Request>, index: nat, request: Request)
    requires index < |requests|
    ensures Shares(db, account, requests[index := request])
            == Shares(db, account, requests) - Share(db, account, requests[index]) + Share(db, account, request)
  {
    var n := |requests| - 1;
    var changed := requests[index := request];
    if index < n {
      SharesAfterUpdate(db, account, requests[..n], index, request);
      assert changed[..n] == requests[..n][index := request];
    } else {
      assert changed[..n] == requests[..n];
    }
  }

  /** The columns that say whose a token is and whether it is limited never change. */
  predicate SameTokens(a: Db, b: Db) {
    a.owner == b.owner && a.unlimited == b.unlimited
  }

  lemma SameShare(a: Db, b: Db, account: Account, request: Request)
    requires SameTokens(a, b)
    ensures Share(a, account, request) == Share(b, account, request)
  {
  }

  lemma {:induction false} SharesDependOnTokens(a: Db, b: Db, account: Account, requests: seq<Request>)
    requires SameTokens(a, b)
    ensures Shares(a, account, requests) == Shares(b, account, requests)
  {
    if requests != [] {
      SharesDependOnTokens(a, b, account, requests[..|requests| - 1]);
    }
  }

  /** Learning how the upstream call ended moves no balance. */
  lemma AwaitTakesNothing(request: Request, hold: nat, exit: Exit)
    ensures var phase := AfterAwait(request, hold, exit);
            && TakenFromUser(phase) == TakenFromToken(phase) == hold
            && BookedToUser(phase) == BookedToChannel(phase) == Counted(request.(phase := phase)) == 0
  {
    hide Pricing.Price;
  }

  /** How far a statement moves the balance of an account. */
  function Impact(statement: Statement, account: Account): int {
    match (statement, account)
    case (AddToUser(userId, amount), UserAccount(id)) => if userId == id then amount else 0
    case (AddToToken(tokenId, amount), TokenAccount(id)) => if tokenId == id then amount else 0
    case (AddToToken(tokenId, amount), TokenUsedAccount(id)) => if tokenId == id then -amount else 0
    case (BookToUser(userId, price), UsedAccount(id)) => if userId == id then price else 0
    case (BookToUser(userId, _), CountAccount(id)) => if userId == id then 1 else 0
    case (BookToChannel(channelId, price), ChannelAccount(id)) => if channelId == id then price else 0
    case _ => 0
  }

  lemma ExecutedMoves(db: Db, statement: Statement, account: Account)
    requires Present(db, account)
    ensures SameTokens(db, Executed(db, statement)) && Present(Executed(db, statement), account)
    ensures Balance(Executed(db, statement), account) == Balance(db, account) + Impact(statement, account)
  {
  }

  /** A statement moves an account by exactly the change of the request's share in it. */
  lemma IssuedIsShare(db: Db, request: Request, exit: Exit, account: Account)
    ensures Impact(Issued(db, request), account)
            == Share(db, account, request.(phase := Moved(db, request, exit))) - Share(db, account, request)
  {
    hide AfterAwait, Value;
    if request.phase.Await? {
      AwaitTakesNothing(request, request.phase.hold, exit);
    }
  }

  lemma NextMovesShares(s: State, index: nat, exit: Exit, account: Account)
    requires index < |s.requests| && Present(s.db, account)
    ensures var t := Next(s, Advance(index, exit));
            && SameTokens(s.db, t.db) && Present(t.db, account)
            && Balance(t.db, account) - Shares(s.db, account, t.requests)
               == Balance(s.db, account) - Shares(s.db, account, s.requests)
  {
    hide Executed, Issued, Moved, Share, Present, Balance, SameTokens;
    var request := s.requests[index];
    ExecutedMoves(s.db, Issued(s.db, request), account);
    IssuedIsShare(s.db, request, exit, account);
    SharesAfterUpdate(s.db, account, s.requests, index, request.(phase := Moved(s.db, request, exit)));
  }

  function ToppedUp(account: Account, steps: seq<Step>): int {
    if steps == [] then 0
    else
      var last := steps[|steps| - 1];
      ToppedUp(account, steps[..|steps| - 1]) +
      (if last.TopUp? && account == UserAccount(last.userId) then last.amount else 0)
  }

  lemma NewcomerHasNoShare(db: Db, account: Account, request: Request)
    requires request.phase.ReadBalance?
    ensures Share(db, account, request) == 0
  {
  }

  lemma ArrivalMovesNothing(s: State, step: Step, account: Account)
    requires step.Arrive?
    ensures Next(s, step).db == s.db
    ensures Shares(s.db, account, Next(s, step).requests) == Shares(s.db, account, s.requests)
  {
    hide Share, Executed, Issued, Moved;
    var request := Request(step.meta, step.audio, step.estimate, ReadBalance);
    assert (s.requests + [request])[..|s.requests|] == s.requests;
    NewcomerHasNoShare(s.db, account, request);
  }

  lemma TopUpMoves(s: State, step: Step, account: Account)
    requires step.TopUp? && Present(s.db, account)
    ensures var t := Next(s, step);
            && t.requests == s.requests && SameTokens(s.db, t.db) && Present(t.db, account)
            && Balance(t.db, account)
               == Balance(s.db, account) + if account == UserAccount(step.userId) then step.amount else 0
  {
    hide Executed, Issued, Moved;
  }

  /** One step moves an account by a top-up or by the change of the requests' shares in it. */
  lemma StepMovesShares(s: State, step: Step, account: Account)
    requires Present(s.db, account)
    ensures var t := Next(s, step);
            && SameTokens(s.db, t.db) && Present(t.db, account)
            && Balance(t.db, account) - Shares(s.db, account, t.requests)
               == Balance(s.db, account) - Shares(s.db, account, s.requests)
                  + if step.TopUp? && account == UserAccount(step.userId) then step.amount else 0
  {
    match step {
      case Arrive(_, _, _) => ArrivalMovesNothing(s, step, account);
      case TopUp(_, _) => TopUpMoves(s, step, account);
      case Advance(index, exit) =>
        hide Executed, Issued, Moved;
        if index < |s.requests| {
          NextMovesShares(s, index, exit, account);
        }
    }
  }

  /**
    At every moment of every run each balance is the one it started with, plus the top-ups, plus
    what the phases of the requests account for.
   */
  lemma {:induction false} BalancesFollowPhases(db: Db, steps: seq<Step>, account: Account)
    requires Present(db, account)
    ensures var s := Run(db, steps);
            && SameTokens(db, s.db) && Present(s.db, account)
            && Balance(s.db, account) == Balance(db, account) + ToppedUp(account, steps) + Shares(db, account, s.requests)
  {
    if steps != [] {
      hide Next, Balance, Present;
      var before, last := Run(db, steps[..|steps| - 1]), steps[|steps| - 1];
      BalancesFollowPhases(db, steps[..|steps| - 1], account);
      StepMovesShares(before, last, account);
      SharesDependOnTokens(db, before.db, account, before.requests);
      SharesDependOnTokens(db, before.db, account, Next(before, last).requests);
    }
  }

  // ---- Conservation ----

  /** Every request is made with a token that exists and belongs to its user. */
  ghost predicate OwnTokens(db: Db, requests: seq<Request>) {
    forall i :: 0 <= i < |requests| ==> OwnToken(db, requests[i].meta)
  }

  ghost predicate OwnToken(db: Db, meta: Meta) {
    TokenFound(db, meta.tokenId) && db.owner[meta.tokenId] == meta.userId
  }

  /** What the requests of a user have taken from its quota and not booked as used. */
  function Outstanding(userId: int, requests: seq<Request>): int {
    if requests == [] then 0
    else
      var last := requests[|requests| - 1];
      Outstanding(userId, requests[..|requests| - 1]) +
      (if last.meta.userId == userId then TakenFromUser(last.phase) - BookedToUser(last.phase) else 0)
  }

  lemma {:induction false} OutstandingShares(db: Db, userId: int, requests: seq<Request>)
    requires OwnTokens(db, requests)
    ensures Shares(db, UserAccount(userId), requests) + Shares(db, UsedAccount(userId), requests)
            == -Outstanding(userId, requests)
  {
    if requests != [] {
      assert OwnToken(db, requests[|requests| - 1].meta);
      OutstandingShares(db, userId, requests[..|requests| - 1]);
    }
  }

  /** Whatever a user was granted is unused, or used, or held by a request that is not done with it. */
  lemma UserQuotaConserved(db: Db, steps: seq<Step>, userId: int)
    requires userId in db.userQuota && userId in db.userUsedQuota
    requires OwnTokens(db, Run(db, steps).requests)
    ensures var s := Run(db, steps);
            Value(s.db.userQuota, userId) + Value(s.db.userUsedQuota, userId) + Outstanding(userId, s.requests)
            == Value(db.userQuota, userId) + Value(db.userUsedQuota, userId) + ToppedUp(UserAccount(userId), steps)
  {
    BalancesFollowPhases(db, steps, UserAccount(userId));
    BalancesFollowPhases(db, steps, UsedAccount(userId));
    OutstandingShares(db, userId, Run(db, steps).requests);
    NoOtherTopUps(UsedAccount(userId), steps);
  }

  lemma {:induction false} NoOtherTopUps(account: Account, steps: seq<Step>)
    requires !account.UserAccount?
    ensures ToppedUp(account, steps) == 0
  {
    if steps != [] {
      NoOtherTopUps(account, steps[..|steps| - 1]);
    }
  }

  /** A token's remaining and used quota always add up to what it was given. */
  lemma TokenQuotaConserved(db: Db, steps: seq<Step>, tokenId: int)
    requires tokenId in db.remainQuota && tokenId in db.tokenUsedQuota
    ensures var s := Run(db, steps);
            Value(s.db.remainQuota, tokenId) + Value(s.db.tokenUsedQuota, tokenId)
            == Value(db.remainQuota, tokenId) + Value(db.tokenUsedQuota, tokenId)
  {
    BalancesFollowPhases(db, steps, TokenAccount(tokenId));
    BalancesFollowPhases(db, steps, TokenUsedAccount(tokenId));
    NoOtherTopUps(TokenAccount(tokenId), steps);
    NoOtherTopUps(TokenUsedAccount(tokenId), steps);
    TokenSharesCancel(db, tokenId, Run(db, steps).requests);
  }

  lemma {:induction false} TokenSharesCancel(db: Db, tokenId: int, requests: seq<Request>)
    ensures Shares(db, TokenAccount(tokenId), requests) + Shares(db, TokenUsedAccount(tokenId), requests) == 0
  {
    if requests != [] {
      TokenSharesCancel(db, tokenId, requests[..|requests| - 1]);
    }
  }

  /** The holds of a user that finished requests never gave back. */
  function KeptHolds(userId: int, requests: seq<Request>): int {
    if requests == [] then 0
    else
      var last := requests[|requests| - 1];
      KeptHolds(userId, requests[..|requests| - 1]) +
      (match last.phase
       case Finished(Kept(hold)) => if last.meta.userId == userId then hold else 0
       case _ => 0)
  }

  ghost predicate AllFinished(requests: seq<Request>) {
    forall i :: 0 <= i < |requests| ==> requests[i].phase.Finished?
  }

  lemma {:induction false} FinishedOutstanding(userId: int, requests: seq<Request>)
    requires AllFinished(requests)
    ensures Outstanding(userId, requests) == KeptHolds(userId, requests)
  {
    if requests != [] {
      FinishedOutstanding(userId, requests[..|requests| - 1]);
    }
  }

  /** When every request is finished, only the forgotten holds are missing from what users own. */
  lemma FinishedQuotaConserved(db: Db, steps: seq<Step>, userId: int)
    requires userId in db.userQuota && userId in db.userUsedQuota
    requires OwnTokens(db, Run(db, steps).requests) && AllFinished(Run(db, steps).requests)
    ensures var s := Run(db, steps);
            Value(s.db.userQuota, userId) + Value(s.db.userUsedQuota, userId) + KeptHolds(userId, s.requests)
            == Value(db.userQuota, userId) + Value(db.userUsedQuota, userId) + ToppedUp(UserAccount(userId), steps)
  {
    UserQuotaConserved(db, steps, userId);
    FinishedOutstanding(userId, Run(db, steps).requests);
  }

  // ---- Which holds are forgotten ----

  predicate KeepsHold(request: Request) {
    request.phase.Finished? && request.phase.outcome.Kept?
  }

  /** A step that takes a text request out of its upstream call by an exit that gives nothing back. */
  predicate LeavesForgetfully(request: Request, exit: Exit) {
    request.phase.Await? && !request.audio && exit.TextExit? &&
    (exit.text.NoAdaptor? || exit.text.ConvertFailed? || exit.text.RequestFailed? || exit.text == Answered(None))
  }

  lemma ForgetsHoldNext(db: Db, request: Request, exit: Exit)
    requires !request.phase.Finished?
    ensures KeepsHold(request.(phase := Moved(db, request, exit))) <==> LeavesForgetfully(request, exit)
    ensures LeavesForgetfully(request, exit) ==> Moved(db, request, exit) == Finished(Kept(request.phase.hold))
  {
    hide Pricing.Price;
  }

  lemma FinishedStays(db: Db, request: Request, exit: Exit)
    requires request.phase.Finished?
    ensures Moved(db, request, exit) == request.phase && Issued(db, request) == NoStatement
  {
  }

  /** In the j-th step of a run the i-th request leaves its upstream call with its hold forgotten. */
  ghost predicate Forgets(db: Db, steps: seq<Step>, i: nat, j: int) {
    && 0 <= j < |steps| && steps[j].Advance? && steps[j].index == i
    && var requests := Run(db, steps[..j]).requests;
       i < |requests| && LeavesForgetfully(requests[i], steps[j].exit)
  }

  lemma ForgetsBefore(db: Db, steps: seq<Step>, i: nat, j: int)
    requires 0 <= j < |steps| - 1
    ensures Forgets(db, steps, i, j) <==> Forgets(db, steps[..|steps| - 1], i, j)
  {
    assert steps[..|steps| - 1][..j] == steps[..j];
  }

  lemma {:induction false} RequestsGrow(db: Db, steps: seq<Step>, j: nat)
    requires j <= |steps|
    ensures |Run(db, steps[..j]).requests| <= |Run(db, steps).requests|
  {
    hide Executed, Issued, Moved;
    if j == |steps| {
      assert steps[..j] == steps;
    } else {
      RequestsGrow(db, steps[..|steps| - 1], j);
      assert steps[..|steps| - 1][..j] == steps[..j];
    }
  }

  /** What the last step does to the i-th request. */
  lemma RequestNext(db: Db, steps: seq<Step>, i: nat)
    requires steps != [] && i < |Run(db, steps).requests|
    ensures var (before, last) := (Run(db, steps[..|steps| - 1]), steps[|steps| - 1]);
            var request := Run(db, steps).requests[i];
            if i >= |before.requests| then last.Arrive? && request.phase == ReadBalance
            else request == if last == Advance(i, if last.Advance? then last.exit else TextExit(NoAdaptor))
                            then before.requests[i].(phase := Moved(before.db, before.requests[i], last.exit))
                            else before.requests[i]
  {
    hide Executed, Issued, Moved;
  }

  /**
    In every reachable state a request is done with its hold kept exactly when it is a text request
    that some step took out of its upstream call by a forgetful exit, and what is kept is what it held then.
   */
  lemma {:induction false} ForgetsHoldIff(db: Db, steps: seq<Step>, i: nat)
    requires i < |Run(db, steps).requests|
    ensures KeepsHold(Run(db, steps).requests[i]) <==> exists j :: Forgets(db, steps, i, j)
    ensures forall j :: Forgets(db, steps, i, j) ==>
              Run(db, steps).requests[i].phase == Finished(Kept(Run(db, steps[..j]).requests[i].phase.hold))
  {
    hide Run, Moved, KeepsHold, LeavesForgetfully;
    if steps == [] {
      NobodyYet(db);
    } else {
      var n := |steps| - 1;
      var before, last := Run(db, steps[..n]), steps[n];
      RequestNext(db, steps, i);
      forall j | 0 <= j < n
        ensures Forgets(db, steps, i, j) <==> Forgets(db, steps[..n], i, j)
        ensures steps[..n][..j] == steps[..j]
      {
        ForgetsBefore(db, steps, i, j);
      }
      if i >= |before.requests| {
        forall j ensures !Forgets(db, steps, i, j) {
          if 0 <= j <= n {
            RequestsGrow(db, steps[..n], j);
            assert steps[..n][..j] == steps[..j];
          }
        }
        NewKeepsNothing(Run(db, steps).requests[i]);
      } else {
        ForgetsHoldIff(db, steps[..n], i);
        LastForgets(db, steps, i);
      }
    }
  }

  lemma NobodyYet(db: Db)
    ensures Run(db, []).requests == []
  {
  }

  lemma NewKeepsNothing(request: Request)
    requires request.phase == ReadBalance
    ensures !KeepsHold(request)
  {
  }

  /** The induction step for a request that was already there. */
  lemma LastForgets(db: Db, steps: seq<Step>, i: nat)
    requires steps != [] && i < |Run(db, steps).requests| && i < |Run(db, steps[..|steps| - 1]).requests|
    ensures var (was, now) := (Run(db, steps[..|steps| - 1]).requests[i], Run(db, steps).requests[i]);
            && (KeepsHold(was) ==> now == was && !Forgets(db, steps, i, |steps| - 1))
            && (!KeepsHold(was) ==> (KeepsHold(now) <==> Forgets(db, steps, i, |steps| - 1)))
            && (Forgets(db, steps, i, |steps| - 1) ==> now.phase == Finished(Kept(was.phase.hold)))
  {
    hide Run, Moved;
    var (before, last) := (Run(db, steps[..|steps| - 1]), steps[|steps| - 1]);
    var was := before.requests[i];
    RequestNext(db, steps, i);
    if last.Advance? && last.index == i {
      if was.phase.Finished? {
        FinishedStays(before.db, was, last.exit);
      } else {
        ForgetsHoldNext(before.db, was, last.exit);
      }
    }
  }

  /** No run has an audio request that keeps its hold. */
  lemma AudioForgetsNothing(db: Db, steps: seq<Step>, i: nat)
    requires i < |Run(db, steps).requests| && Run(db, steps).requests[i].audio
    ensures !KeepsHold(Run(db, steps).requests[i])
  {
    ForgetsHoldIff(db, steps, i);
    forall j ensures !Forgets(db, steps, i, j) {
      if 0 <= j <= |steps| {
        KindStays(db, steps, i, j);
      }
    }
  }

  lemma {:induction false} KindStays(db: Db, steps: seq<Step>, i: nat, j: nat)
    requires j <= |steps| && i < |Run(db, steps).requests|
    ensures i < |Run(db, steps[..j]).requests| ==>
              Run(db, steps[..j]).requests[i].audio == Run(db, steps).requests[i].audio
  {
    hide Run, Moved;
    if j == |steps| {
      assert steps[..j] == steps;
    } else {
      var n := |steps| - 1;
      assert steps[..n][..j] == steps[..j];
      RequestNext(db, steps, i);
      if i < |Run(db, steps[..n]).requests| {
        KindStays(db, steps[..n], i, j);
      } else {
        RequestsGrow(db, steps[..n], j);
      }
    }
  }

  // ---- Which holds are given back ----

  /** The i-th request leaves its upstream call in the j-th step with an error of the upstream. */
  ghost predicate Fails(db: Db, steps: seq<Step>, i: nat, j: int) {
    && 0 <= j < |steps| && steps[j].Advance? && steps[j].index == i
    && steps[j].exit.TextExit? && (steps[j].exit.text.UpstreamError? || steps[j].exit.text.ResponseError?)
    && var requests := Run(db, steps[..j]).requests;
       i < |requests| && requests[i].phase.Await? && !requests[i].audio
  }

  predicate GivingBack(phase: Phase) {
    phase.ReturnUser? || phase.ReturnToken? || phase == Finished(Refunded)
  }

  lemma FailureGivesBack(db: Db, request: Request, exit: Exit)
    requires request.phase.Await? && !request.audio
    requires exit.TextExit? && (exit.text.UpstreamError? || exit.text.ResponseError?)
    ensures GivingBack(Moved(db, request, exit))
  {
    hide Pricing.Price;
  }

  lemma GivesBackOn(db: Db, request: Request, exit: Exit)
    requires GivingBack(request.phase)
    ensures GivingBack(Moved(db, request, exit))
  {
  }

  lemma {:induction false} FailedGivesBack(db: Db, steps: seq<Step>, i: nat, j: int)
    requires Fails(db, steps, i, j)
    ensures i < |Run(db, steps).requests| && GivingBack(Run(db, steps).requests[i].phase)
  {
    hide Run, Moved, GivingBack;
    var n := |steps| - 1;
    var (before, last) := (Run(db, steps[..n]), steps[n]);
    RequestsGrow(db, steps, n);
    if j == n {
      RequestNext(db, steps, i);
      FailureGivesBack(before.db, before.requests[i], last.exit);
    } else {
      assert steps[..n][..j] == steps[..j];
      FailedGivesBack(db, steps[..n], i, j);
      RequestNext(db, steps, i);
      if last.Advance? && last.index == i {
        GivesBackOn(before.db, before.requests[i], last.exit);
      }
    }
  }

  /** A request that failed upstream has no share in any account once it is finished. */
  lemma FailedHasNoShare(db: Db, steps: seq<Step>, i: nat, j: int, account: Account)
    requires Fails(db, steps, i, j) && i < |Run(db, steps).requests| && Run(db, steps).requests[i].phase.Finished?
    ensures Run(db, steps).requests[i].phase == Finished(Refunded)
    ensures Share(db, account, Run(db, steps).requests[i]) == 0
  {
    hide Run;
    FailedGivesBack(db, steps, i, j);
  }
}
