/**
  One request alone in the ledger.  Its single database statements, run to the end, add up to what
  the handler of the request does in one go.
 */
module SoloRun {
  import opened Database
  import opened Quota
  import opened Billing
  import opened Ledger

  /** How many steps a request can still take. */
  function Rank(phase: Phase): nat {
    match phase
    case ReadBalance => 10
    case ReadToken(_) => 9
    case ReadUser(_) => 8
    case TakeToken(_) => 7
    case TakeUser(_) => 6
    case Await(_) => 5
    case ReturnUser(_) => 2
    case ReturnToken(_) => 1
    case ChargeUser(_, _) => 4
    case ChargeToken(_, _) => 3
    case BookUser(_) => 2
    case BookChannel(_) => 1
    case Finished(_) => 0
  }

  predicate Fitting(request: Request, exit: Exit) {
    request.audio <==> exit.AudioExit?
  }

  lemma RankFalls(db: Db, request: Request, exit: Exit)
    requires Fitting(request, exit) && !request.phase.Finished?
    ensures Rank(Moved(db, request, exit)) < Rank(request.phase)
  {
    hide Pricing.Price;
  }

  function Alone(db: Db, request: Request): State {
    State(db, [request])
  }

  /** The only request of a state takes all its steps; it never waits for good. */
  function Completed(s: State, exit: Exit): (t: State)
    requires |s.requests| == 1 && Fitting(s.requests[0], exit)
    ensures |t.requests| == 1 && t.requests[0].phase.Finished?
    decreases Rank(s.requests[0].phase)
  {
    if s.requests[0].phase.Finished? then s
    else
      RankFalls(s.db, s.requests[0], exit);
      Completed(Next(s, Advance(0, exit)), exit)
  }

  /** Completing is running on. */
  lemma {:induction false} CompletedIsRun(db: Db, steps: seq<Step>, exit: Exit) returns (more: seq<Step>)
    requires |Run(db, steps).requests| == 1 && Fitting(Run(db, steps).requests[0], exit)
    ensures Run(db, steps + more) == Completed(Run(db, steps), exit)
    decreases Rank(Run(db, steps).requests[0].phase)
  {
    hide Executed, Issued, Moved;
    var s := Run(db, steps);
    if s.requests[0].phase.Finished? {
      more := [];
      assert steps + more == steps;
    } else {
      RankFalls(s.db, s.requests[0], exit);
      var next := [Advance(0, exit)];
      assert (steps + next)[..|steps|] == steps;
      var rest := CompletedIsRun(db, steps + next, exit);
      more := next + rest;
      assert steps + more == steps + next + rest;
    }
  }

  lemma OneStep(db: Db, request: Request, exit: Exit)
    requires Fitting(request, exit) && !request.phase.Finished?
    ensures Completed(Alone(db, request), exit)
            == Completed(Alone(Executed(db, Issued(db, request)), request.(phase := Moved(db, request, exit))), exit)
  {
    hide Executed, Issued, Moved;
    var moved := request.(phase := Moved(db, request, exit));
    assert [request][0 := moved] == [moved];
    assert Next(Alone(db, request), Advance(0, exit)) == Alone(Executed(db, Issued(db, request)), moved);
  }

  lemma BookingCompletes(db: Db, request: Request, exit: Exit, price: int)
    requires Fitting(request, exit)
    ensures Completed(Alone(db, request.(phase := BookUser(price))), exit)
            == Alone(if SkipsBooking(request, price) then db else Book(db, request.meta, price),
                     request.(phase := Finished(Settled(price))))
  {
    hide Completed, Added;
    var (first, second) := (request.(phase := BookUser(price)), request.(phase := BookChannel(price)));
    OneStep(db, first, exit);
    var booked := Executed(db, Issued(db, first));
    OneStep(booked, second, exit);
    FinishedCompletes(Executed(booked, Issued(booked, second)), request.(phase := Finished(Settled(price))), exit);
  }

  lemma FinishedCompletes(db: Db, request: Request, exit: Exit)
    requires Fitting(request, exit) && request.phase.Finished?
    ensures Completed(Alone(db, request), exit) == Alone(db, request)
  {
  }

  lemma UpdatesCommute(db: Db, userId: int, tokenId: int, a: int, b: int)
    ensures AddUserQuota(AddTokenQuota(db, tokenId, b), userId, a) == AddTokenQuota(AddUserQuota(db, userId, a), tokenId, b)
  {
    hide Added;
  }

  lemma UpdatesKeepTokens(db: Db, id: int, amount: int, tokenId: int)
    ensures ForToken(AddUserQuota(db, id, amount), tokenId, amount) == ForToken(db, tokenId, amount)
    ensures ForOwner(AddTokenQuota(db, id, amount), tokenId, amount) == ForOwner(db, tokenId, amount)
  {
    hide Added;
  }

  /** The statements of a charge, in the order of the settlement and of the refund. */
  lemma UserThenToken(db: Db, tokenId: int, amount: int)
    ensures var first := Executed(db, ForOwner(db, tokenId, 0 - amount));
            Executed(first, ForToken(first, tokenId, 0 - amount)) == Charge(db, tokenId, amount)
  {
    hide AddUserQuota, AddTokenQuota;
    if TokenFound(db, tokenId) {
      UpdatesKeepTokens(db, db.owner[tokenId], 0 - amount, tokenId);
    }
  }

  lemma TokenThenUser(db: Db, tokenId: int, amount: int)
    ensures var first := Executed(db, ForToken(db, tokenId, 0 - amount));
            Executed(first, ForOwner(first, tokenId, 0 - amount)) == Charge(db, tokenId, amount)
  {
    hide AddUserQuota, AddTokenQuota;
    if Limited(db, tokenId) {
      UpdatesKeepTokens(db, tokenId, 0 - amount, tokenId);
      UpdatesCommute(db, db.owner[tokenId], tokenId, 0 - amount, 0 - amount);
    }
  }

  lemma ChargingCompletes(db: Db, request: Request, exit: Exit, hold: nat, price: int)
    requires Fitting(request, exit)
    ensures var charged := Charge(db, request.meta.tokenId, price - hold);
            Completed(Alone(db, request.(phase := ChargeUser(hold, price))), exit)
            == Alone(if SkipsBooking(request, price) then charged else Book(charged, request.meta, price),
                     request.(phase := Finished(Settled(price))))
  {
    hide Completed, Executed, ForOwner, ForToken, Charge, Book;
    var tokenId := request.meta.tokenId;
    var (first, second) := (request.(phase := ChargeUser(hold, price)), request.(phase := ChargeToken(hold, price)));
    OneStep(db, first, exit);
    OneStep(Executed(db, Issued(db, first)), second, exit);
    UserThenToken(db, tokenId, price - hold);
    assert 0 - (price - hold) == hold - price;
    BookingCompletes(Charge(db, tokenId, price - hold), request, exit, price);
  }

  lemma ReturningCompletes(db: Db, request: Request, exit: Exit, hold: nat)
    requires Fitting(request, exit)
    ensures Completed(Alone(db, request.(phase := ReturnUser(hold))), exit)
            == Alone(Charge(db, request.meta.tokenId, 0 - hold), request.(phase := Finished(Refunded)))
  {
    hide Completed, Executed, ForOwner, ForToken, Charge;
    var tokenId := request.meta.tokenId;
    var (first, second) := (request.(phase := ReturnUser(hold)), request.(phase := ReturnToken(hold)));
    OneStep(db, first, exit);
    OneStep(Executed(db, Issued(db, first)), second, exit);
    UserThenToken(db, tokenId, 0 - hold);
    assert 0 - (0 - hold) == hold;
    FinishedCompletes(Charge(db, tokenId, 0 - hold), request.(phase := Finished(Refunded)), exit);
  }

  /** The steps before the upstream call take the hold, or reject the request without a trace. */
  lemma HoldingCompletes(db: Db, request: Request, exit: Exit)
    requires Fitting(request, exit) && request.phase == ReadBalance
    ensures Completed(Alone(db, request), exit) ==
            match Hold(db, request.meta, request.estimate)
            case None => Alone(db, request.(phase := Finished(Rejected)))
            case Some(hold) => Completed(Alone(Held(db, request.meta, hold), request.(phase := Await(hold))), exit)
  {
    hide Completed, Charge, AfterAwait;
    var meta, estimate := request.meta, request.estimate;
    var balance := Value(db.userQuota, meta.userId);
    OneStep(db, request, exit);
    if balance - estimate < 0 {
      FinishedCompletes(db, request.(phase := Finished(Rejected)), exit);
    } else {
      var hold := if balance > 100 * estimate then 0 else estimate;
      if hold > 0 {
        CheckingCompletes(db, request, exit, hold);
      }
    }
  }

  lemma CheckingCompletes(db: Db, request: Request, exit: Exit, hold: nat)
    requires Fitting(request, exit)
    ensures Completed(Alone(db, request.(phase := ReadToken(hold))), exit) ==
            if !Affordable(db, request.meta.tokenId, hold) then Alone(db, request.(phase := Finished(Rejected)))
            else Completed(Alone(Charge(db, request.meta.tokenId, hold), request.(phase := Await(hold))), exit)
  {
    hide Completed, Charge, AfterAwait;
    var (first, second) := (request.(phase := ReadToken(hold)), request.(phase := ReadUser(hold)));
    OneStep(db, first, exit);
    if Moved(db, first, exit) == ReadUser(hold) {
      OneStep(db, second, exit);
      if Moved(db, second, exit) == TakeToken(hold) {
        TakingCompletes(db, request, exit, hold);
      } else {
        FinishedCompletes(db, request.(phase := Finished(Rejected)), exit);
      }
    } else {
      FinishedCompletes(db, request.(phase := Finished(Rejected)), exit);
    }
  }

  lemma TakingCompletes(db: Db, request: Request, exit: Exit, hold: nat)
    requires Fitting(request, exit)
    ensures Completed(Alone(db, request.(phase := TakeToken(hold))), exit)
            == Completed(Alone(Charge(db, request.meta.tokenId, hold), request.(phase := Await(hold))), exit)
  {
    hide Completed, Executed, ForOwner, ForToken, Charge;
    var (first, second) := (request.(phase := TakeToken(hold)), request.(phase := TakeUser(hold)));
    OneStep(db, first, exit);
    OneStep(Executed(db, Issued(db, first)), second, exit);
    TokenThenUser(db, request.meta.tokenId, hold);
  }

  /** Alone, the statements of a text request have exactly the effect of its handler. */
  lemma TextRunsLikeHandler(db: Db, meta: Meta, estimate: nat, exit: Billing.TextExit)
    ensures var t := Completed(Alone(db, Request(meta, false, estimate, ReadBalance)), TextExit(exit));
            var outcome := match Hold(db, meta, estimate)
                           case None => Rejected
                           case Some(hold) => TextOutcome(meta, hold, exit);
            t == Alone(Effect(db, meta, outcome), Request(meta, false, estimate, Finished(outcome)))
  {
    hide Completed, Charge, Book, Pricing.Price;
    var request := Request(meta, false, estimate, ReadBalance);
    HoldingCompletes(db, request, TextExit(exit));
    match Hold(db, meta, estimate) {
      case None =>
      case Some(hold) => AnswerCompletes(db, request, hold, exit);
    }
  }

  lemma AnswerCompletes(db: Db, request: Request, hold: nat, exit: Billing.TextExit)
    requires !request.audio
    ensures var outcome := TextOutcome(request.meta, hold, exit);
            Completed(Alone(Held(db, request.meta, hold), request.(phase := Await(hold))), TextExit(exit))
            == Alone(Effect(db, request.meta, outcome), request.(phase := Finished(outcome)))
  {
    hide Completed, Charge, Book, Pricing.Price;
    var meta, held := request.meta, Held(db, request.meta, hold);
    var outcome := TextOutcome(meta, hold, exit);
    OneStep(held, request.(phase := Await(hold)), TextExit(exit));
    HeldThenReturned(db, meta, hold);
    match outcome {
      case Settled(price) =>
        ChargingCompletes(held, request, TextExit(exit), hold, price);
        HeldThenCharged(db, meta, hold, price);
      case Refunded =>
        if hold != 0 {
          ReturningCompletes(held, request, TextExit(exit), hold);
        } else {
          FinishedCompletes(held, request.(phase := Finished(Refunded)), TextExit(exit));
        }
      case Kept(_) => FinishedCompletes(held, request.(phase := Finished(outcome)), TextExit(exit));
    }
  }

  /** The same for an audio request. */
  lemma AudioRunsLikeHandler(db: Db, meta: Meta, estimate: nat, exit: Billing.AudioExit)
    ensures var t := Completed(Alone(db, Request(meta, true, estimate, ReadBalance)), AudioExit(exit));
            var outcome := if Hold(db, meta, estimate).None? then Rejected
                           else if exit.Heard? then Settled(exit.quota) else Refunded;
            t == Alone(if outcome.Settled? then BookSome(Charge(db, meta.tokenId, outcome.price), meta, outcome.price) else db,
                       Request(meta, true, estimate, Finished(outcome)))
  {
    hide Completed, Charge, Book;
    var request := Request(meta, true, estimate, ReadBalance);
    HoldingCompletes(db, request, AudioExit(exit));
    match Hold(db, meta, estimate) {
      case None =>
      case Some(hold) =>
        var held := Held(db, meta, hold);
        OneStep(held, request.(phase := Await(hold)), AudioExit(exit));
        HeldThenReturned(db, meta, hold);
        if exit.Heard? {
          ChargingCompletes(held, request, AudioExit(exit), hold, exit.quota);
          HeldThenCharged(db, meta, hold, exit.quota);
        } else if hold > 0 {
          ReturningCompletes(held, request, AudioExit(exit), hold);
        } else {
          FinishedCompletes(held, request.(phase := Finished(Refunded)), AudioExit(exit));
        }
    }
  }
}
