/**
  The requests of `Ledger` with batching on.  A request still reads the rows, but what it would send to
  the database it records in the delta stores, one record at a time, while the updater swaps stores and
  applies them in between.
 */
module BatchedLedger {
  import opened Wrappers
  import opened Database
  import opened Billing
  import Batch = BatchUpdater
  import L = Ledger

  datatype Record = Record(kind: Batch.Kind, id: int, value: int)

  /** A request, and the records it has decided on and not yet made. */
  datatype Client = Client(request: L.Request, todo: seq<Record>)

  datatype State = State(batch: Batch.State, clients: seq<Client>)

  /**
    Each step takes at most one lock or sends at most one statement.  A top-up is recorded; a
    redemption goes to the row itself.
   */
  datatype Step =
    | Arrive(meta: Meta, audio: bool, estimate: nat)
    | TopUp(userId: int, amount: nat)
    | Redeem(userId: int, amount: nat)
    | Advance(index: nat, exit: L.Exit)
    | Swap(kind: Batch.Kind)
    | Apply(key: int)

  /** What is recorded for a statement; the used quota and the count of a user have stores of their own. */
  function Records(statement: L.Statement): seq<Record> {
    match statement
    case NoStatement => []
    case AddToUser(userId, amount) => [Record(Batch.UserQuota, userId, amount)]
    case AddToToken(tokenId, amount) => [Record(Batch.TokenQuota, tokenId, amount)]
    case BookToUser(userId, price) => [Record(Batch.UsedQuota, userId, price), Record(Batch.RequestCount, userId, 1)]
    case BookToChannel(channelId, price) => [Record(Batch.ChannelUsedQuota, channelId, price)]
  }

  function Made(batch: Batch.State, record: Record): (next: Batch.State)
    requires Batch.WellFormed(batch)
    ensures Batch.WellFormed(next)
  {
    Batch.Next(batch, Batch.Record(record.kind, record.id, record.value))
  }

  /** A request makes its next record or, when there is none, reads the rows and moves on. */
  function Advanced(s: State, index: nat, exit: L.Exit): (next: State)
    requires Batch.WellFormed(s.batch) && index < |s.clients|
    ensures Batch.WellFormed(next.batch)
  {
    var client := s.clients[index];
    if client.todo != [] then
      State(Made(s.batch, client.todo[0]), s.clients[index := client.(todo := client.todo[1..])])
    else
      var moved := client.request.(phase := L.Moved(s.batch.db, client.request, exit));
      s.(clients := s.clients[index := Client(moved, Records(L.Issued(s.batch.db, client.request)))])
  }

  function Next(s: State, step: Step): (next: State)
    requires Batch.WellFormed(s.batch)
    ensures Batch.WellFormed(next.batch)
  {
    match step
    case Arrive(meta, audio, estimate) => s.(clients := s.clients + [Client(L.Request(meta, audio, estimate, L.ReadBalance), [])])
    case TopUp(userId, amount) => s.(batch := Made(s.batch, Record(Batch.UserQuota, userId, amount)))
    case Redeem(userId, amount) => s.(batch := s.batch.(db := AddUserQuota(s.batch.db, userId, amount)))
    case Advance(index, exit) => if index < |s.clients| then Advanced(s, index, exit) else s
    case Swap(kind) => s.(batch := Batch.Next(s.batch, Batch.Swap(kind)))
    case Apply(key) => s.(batch := Batch.Next(s.batch, Batch.Apply(key)))
  }

  function Run(db: Db, steps: seq<Step>): (s: State)
    ensures Batch.WellFormed(s.batch)
  {
    if steps == [] then State(Batch.Start(db), []) else Next(Run(db, steps[..|steps| - 1]), steps[|steps| - 1])
  }

  // ---- Rows and what is pending for them ----

  /** The rows as they will read once everything recorded has arrived. */
  ghost function Whole(batch: Batch.State): Db
    requires Batch.WellFormed(batch)
  {
    Batch.Effective(batch.db, Batch.PendingOf(batch))
  }

  function Requests(clients: seq<Client>): seq<L.Request> {
    seq(|clients|, i requires 0 <= i < |clients| => clients[i].request)
  }

  /** How a counter changes an account, which it may not concern at all. */
  function Change(kind: Batch.Kind, account: L.Account, value: int): Option<int> {
    match (kind, account)
    case (UserQuota, UserAccount(_)) => Some(value)
    case (TokenQuota, TokenAccount(_)) => Some(value)
    case (TokenQuota, TokenUsedAccount(_)) => Some(-value)
    case (UsedQuota, UsedAccount(_)) => Some(value)
    case (RequestCount, CountAccount(_)) => Some(value)
    case (ChannelUsedQuota, ChannelAccount(_)) => Some(value)
    case _ => None
  }

  /** How far a record moves an account. */
  function Impact(record: Record, account: L.Account): int {
    var change := Change(record.kind, account, record.value);
    if change.Some? && record.id == L.RowOf(account) then change.value else 0
  }

  function Todo(records: seq<Record>, account: L.Account): int {
    if records == [] then 0 else Impact(records[0], account) + Todo(records[1..], account)
  }

  /** What requests have decided on and not yet recorded. */
  function Owed(clients: seq<Client>, account: L.Account): int {
    if clients == [] then 0
    else Owed(clients[..|clients| - 1], account) + Todo(clients[|clients| - 1].todo, account)
  }

  lemma {:induction false} OwedAfterUpdate(clients: seq<Client>, account: L.Account, index: nat, client: Client)
    requires index < |clients|
    ensures Owed(clients[index := client], account)
            == Owed(clients, account) - Todo(clients[index].todo, account) + Todo(client.todo, account)
  {
    hide Todo;
    var n := |clients| - 1;
    var changed := clients[index := client];
    if index < n {
      OwedAfterUpdate(clients[..n], account, index, client);
      assert changed[..n] == clients[..n][index := client];
    } else {
      assert changed[..n] == clients[..n];
    }
  }

  lemma TodoOne(record: Record, account: L.Account)
    ensures Todo([record], account) == Impact(record, account)
  {
    assert Todo([record][1..], account) == 0;
  }

  lemma TodoTwo(first: Record, second: Record, account: L.Account)
    ensures Todo([first, second], account) == Impact(first, account) + Impact(second, account)
  {
    assert [first, second][1..] == [second];
    TodoOne(second, account);
  }

  /** Recording has the impact of the statement. */
  lemma RecordsImpact(statement: L.Statement, account: L.Account)
    ensures Todo(Records(statement), account) == L.Impact(statement, account)
  {
    hide Todo;
    match statement {
      case NoStatement => NothingTodo(account);
      case AddToUser(userId, amount) => TodoOne(Record(Batch.UserQuota, userId, amount), account);
      case AddToToken(tokenId, amount) => TodoOne(Record(Batch.TokenQuota, tokenId, amount), account);
      case BookToUser(userId, price) =>
        TodoTwo(Record(Batch.UsedQuota, userId, price), Record(Batch.RequestCount, userId, 1), account);
      case BookToChannel(channelId, price) => TodoOne(Record(Batch.ChannelUsedQuota, channelId, price), account);
    }
  }

  lemma AppliedKeepsTokens(db: Db, kind: Batch.Kind, id: int, value: int)
    ensures L.SameTokens(db, Batch.Applied(db, kind, id, value))
  {
    hide Added;
  }

  lemma AddedMoves(column: Column, row: int, id: int, value: int)
    requires row in column
    ensures row in Added(column, id, value)
    ensures Value(Added(column, id, value), row) == Value(column, row) + if row == id then value else 0
  {
  }

  lemma AppliedColumn(db: Db, kind: Batch.Kind, id: int, value: int, account: L.Account)
    ensures var (was, change) := (L.ColumnOf(db, account), Change(kind, account, value));
            L.ColumnOf(Batch.Applied(db, kind, id, value), account)
            == if change.Some? then Added(was, id, change.value) else was
  {
    hide Added;
  }

  lemma AppliedMoves(db: Db, record: Record, account: L.Account)
    requires L.Present(db, account)
    ensures var next := Batch.Applied(db, record.kind, record.id, record.value);
            L.Present(next, account) && L.Balance(next, account) == L.Balance(db, account) + Impact(record, account)
  {
    hide Added, Value, Batch.Applied, Change, L.ColumnOf, L.RowOf;
    AppliedColumn(db, record.kind, record.id, record.value, account);
    var change := Change(record.kind, account, record.value);
    if change.Some? {
      AddedMoves(L.ColumnOf(db, account), L.RowOf(account), record.id, change.value);
    }
  }

  lemma MadeMoves(batch: Batch.State, record: Record, account: L.Account)
    requires Batch.WellFormed(batch) && L.Present(Whole(batch), account)
    ensures var next := Made(batch, record);
            && L.SameTokens(Whole(batch), Whole(next)) && L.Present(Whole(next), account)
            && L.Balance(Whole(next), account) == L.Balance(Whole(batch), account) + Impact(record, account)
            && next.db == batch.db
  {
    hide Batch.Effective, Batch.PendingOf, Batch.Applied, Impact, L.Balance, L.Present, L.SameTokens;
    Batch.StepRefines(batch, Batch.Record(record.kind, record.id, record.value));
    AppliedMoves(Whole(batch), record, account);
    AppliedKeepsTokens(Whole(batch), record.kind, record.id, record.value);
  }

  /** The updater moves nothing, and it never touches the columns that say whose a token is. */
  lemma UpdaterMovesNothing(batch: Batch.State, step: Batch.Step)
    requires Batch.WellFormed(batch) && !step.Record?
    ensures var next := Batch.Next(batch, step);
            Whole(next) == Whole(batch) && L.SameTokens(batch.db, next.db)
  {
    hide Batch.Effective, Batch.PendingOf, Batch.Applied;
    Batch.StepRefines(batch, step);
    if step.Apply? && step.key in batch.draining {
      AppliedKeepsTokens(batch.db, batch.kind, step.key, batch.draining[step.key]);
    }
  }

  // ---- Conservation ----

  function ToppedUp(account: L.Account, steps: seq<Step>): int {
    if steps == [] then 0
    else
      var last := steps[|steps| - 1];
      ToppedUp(account, steps[..|steps| - 1]) +
      Granted(last, account)
  }

  function Granted(step: Step, account: L.Account): int {
    if (step.TopUp? || step.Redeem?) && account == L.UserAccount(step.userId) then step.amount else 0
  }

  /** The balance that the phases of all requests and the records still to be made account for. */
  ghost function Unexplained(db: Db, s: State, account: L.Account): int
    requires Batch.WellFormed(s.batch)
  {
    L.Balance(Whole(s.batch), account) + Owed(s.clients, account) - L.Shares(db, account, Requests(s.clients))
  }

  ghost predicate Sound(db: Db, s: State, account: L.Account) {
    Batch.WellFormed(s.batch) && L.Present(Whole(s.batch), account) && L.SameTokens(db, s.batch.db)
  }

  /** A request that moves on changes its share by just what it is going to record. */
  lemma MovingExplains(db: Db, s: State, account: L.Account, index: nat, exit: L.Exit)
    requires Sound(db, s, account) && index < |s.clients| && s.clients[index].todo == []
    ensures Unexplained(db, Advanced(s, index, exit), account) == Unexplained(db, s, account)
    ensures Sound(db, Advanced(s, index, exit), account)
  {
    hide L.Moved, L.Issued, L.Share, L.Impact, Records, Todo, Batch.Effective, Batch.PendingOf;
    var client := s.clients[index];
    var moved := client.request.(phase := L.Moved(s.batch.db, client.request, exit));
    var statement := L.Issued(s.batch.db, client.request);
    L.IssuedIsShare(s.batch.db, client.request, exit, account);
    L.SameShare(db, s.batch.db, account, client.request);
    L.SameShare(db, s.batch.db, account, moved);
    RecordsImpact(statement, account);
    NothingTodo(account);
    OwedAfterUpdate(s.clients, account, index, Client(moved, Records(statement)));
    L.SharesAfterUpdate(db, account, Requests(s.clients), index, moved);
    assert Requests(s.clients[index := Client(moved, Records(statement))]) == Requests(s.clients)[index := moved];
  }

  lemma NothingTodo(account: L.Account)
    ensures Todo([], account) == 0
  {
  }

  lemma RecordingExplains(db: Db, s: State, account: L.Account, index: nat, exit: L.Exit)
    requires Sound(db, s, account) && index < |s.clients| && s.clients[index].todo != []
    ensures Unexplained(db, Advanced(s, index, exit), account) == Unexplained(db, s, account)
    ensures Sound(db, Advanced(s, index, exit), account)
  {
    hide Whole, L.Balance, L.Present, L.SameTokens, Impact, Made, L.Moved, L.Issued;
    var client := s.clients[index];
    var rest := client.(todo := client.todo[1..]);
    MadeMoves(s.batch, client.todo[0], account);
    OwedAfterUpdate(s.clients, account, index, rest);
    assert Requests(s.clients[index := rest]) == Requests(s.clients);
  }

  lemma TopUpExplains(db: Db, s: State, step: Step, account: L.Account)
    requires Sound(db, s, account) && step.TopUp?
    ensures Sound(db, Next(s, step), account)
    ensures Unexplained(db, Next(s, step), account)
            == Unexplained(db, s, account) + Granted(step, account)
  {
    hide Whole, L.Balance, L.Present, Made, L.Shares, Owed;
    MadeMoves(s.batch, Record(Batch.UserQuota, step.userId, step.amount), account);
  }

  /** An update of the row counts as much as a record. */
  lemma RedeemedWhole(batch: Batch.State, userId: int, amount: nat)
    requires Batch.WellFormed(batch)
    ensures Whole(batch.(db := AddUserQuota(batch.db, userId, amount))) == AddUserQuota(Whole(batch), userId, amount)
  {
    hide Batch.Effective;
    var next := batch.(db := AddUserQuota(batch.db, userId, amount));
    var pending := Batch.PendingOf(batch);
    var more: Batch.Pending := (k, i) => pending(k, i) + if k == Batch.UserQuota && i == userId then amount else 0;
    Batch.EffectiveDelta(batch.db, pending, more, Batch.UserQuota, userId, amount);
    Batch.EffectiveSame(next.db, pending, Batch.PendingOf(next));
  }

  lemma RedeemExplains(db: Db, s: State, step: Step, account: L.Account)
    requires Sound(db, s, account) && step.Redeem?
    ensures Sound(db, Next(s, step), account)
    ensures Unexplained(db, Next(s, step), account)
            == Unexplained(db, s, account) + Granted(step, account)
  {
    hide Whole, L.Balance, L.Present, L.Shares, Owed, Added;
    RedeemedWhole(s.batch, step.userId, step.amount);
    var record := Record(Batch.UserQuota, step.userId, step.amount);
    AppliedMoves(Whole(s.batch), record, account);
  }

  lemma UpdaterExplains(db: Db, s: State, step: Step, account: L.Account)
    requires Sound(db, s, account) && (step.Swap? || step.Apply?)
    ensures Sound(db, Next(s, step), account)
    ensures Unexplained(db, Next(s, step), account) == Unexplained(db, s, account)
  {
    hide Whole, L.Balance, L.Present, L.Shares, Owed, Batch.Next;
    UpdaterMovesNothing(s.batch, if step.Swap? then Batch.Swap(step.kind) else Batch.Apply(step.key));
  }

  lemma NextExplains(db: Db, s: State, step: Step, account: L.Account)
    requires Sound(db, s, account)
    ensures Sound(db, Next(s, step), account)
    ensures Unexplained(db, Next(s, step), account)
            == Unexplained(db, s, account) + Granted(step, account)
  {
    hide Sound, Unexplained, Advanced;
    match step {
      case Arrive(_, _, _) => ArrivalExplains(db, s, step, account);
      case TopUp(_, _) => TopUpExplains(db, s, step, account);
      case Redeem(_, _) => RedeemExplains(db, s, step, account);
      case Advance(index, exit) =>
        if index < |s.clients| {
          if s.clients[index].todo == [] {
            MovingExplains(db, s, account, index, exit);
          } else {
            RecordingExplains(db, s, account, index, exit);
          }
        }
      case Swap(_) => UpdaterExplains(db, s, step, account);
      case Apply(_) => UpdaterExplains(db, s, step, account);
    }
  }

  lemma ArrivalExplains(db: Db, s: State, step: Step, account: L.Account)
    requires Sound(db, s, account) && step.Arrive?
    ensures Sound(db, Next(s, step), account)
    ensures Unexplained(db, Next(s, step), account) == Unexplained(db, s, account)
  {
    hide Whole, L.Balance, L.Present, L.Share;
    var request := L.Request(step.meta, step.audio, step.estimate, L.ReadBalance);
    var (clients, requests) := (s.clients + [Client(request, [])], Requests(s.clients));
    assert clients[..|s.clients|] == s.clients;
    assert Requests(clients) == requests + [request] && (requests + [request])[..|requests|] == requests;
    NothingTodo(account);
    L.NewcomerHasNoShare(db, account, request);
  }

  /**
    At every moment of every run each row, with what is pending for it and what is still to be recorded,
    is the row it started as, plus the top-ups, plus what the phases of the requests account for.
   */
  lemma {:induction false} BalancesFollowPhases(db: Db, steps: seq<Step>, account: L.Account)
    requires L.Present(db, account)
    ensures var s := Run(db, steps);
            && Sound(db, s, account)
            && L.Balance(Whole(s.batch), account) + Owed(s.clients, account)
               == L.Balance(db, account) + ToppedUp(account, steps) + L.Shares(db, account, Requests(s.clients))
  {
    if steps == [] {
      var start := Batch.Start(db);
      assert Whole(start) == db by {
        Batch.NothingPending(db, Batch.PendingOf(start));
      }
      assert Requests([]) == [];
    } else {
      BalancesFollowPhases(db, steps[..|steps| - 1], account);
      NextExplains(db, Run(db, steps[..|steps| - 1]), steps[|steps| - 1], account);
      hide Sound, Next, L.Balance, L.Shares, Owed, Whole;
    }
  }

  lemma {:induction false} NoOtherTopUps(account: L.Account, steps: seq<Step>)
    requires !account.UserAccount?
    ensures ToppedUp(account, steps) == 0
  {
    if steps != [] {
      NoOtherTopUps(account, steps[..|steps| - 1]);
    }
  }

  /** Whatever a user was granted is unused, used, held, or on its way, in the rows and all that is pending for them. */
  lemma UserQuotaConserved(db: Db, steps: seq<Step>, userId: int)
    requires userId in db.userQuota && userId in db.userUsedQuota
    requires L.OwnTokens(db, Requests(Run(db, steps).clients))
    ensures var s := Run(db, steps);
            Value(Whole(s.batch).userQuota, userId) + Value(Whole(s.batch).userUsedQuota, userId)
            + Owed(s.clients, L.UserAccount(userId)) + Owed(s.clients, L.UsedAccount(userId))
            + L.Outstanding(userId, Requests(s.clients))
            == Value(db.userQuota, userId) + Value(db.userUsedQuota, userId) + ToppedUp(L.UserAccount(userId), steps)
  {
    BalancesFollowPhases(db, steps, L.UserAccount(userId));
    BalancesFollowPhases(db, steps, L.UsedAccount(userId));
    hide Run, Whole;
    L.OutstandingShares(db, userId, Requests(Run(db, steps).clients));
    NoOtherTopUps(L.UsedAccount(userId), steps);
  }

  /** Remaining and used quota of a token add up to what it was given, with all that is pending. */
  lemma TokenQuotaConserved(db: Db, steps: seq<Step>, tokenId: int)
    requires tokenId in db.remainQuota && tokenId in db.tokenUsedQuota
    ensures var s := Run(db, steps);
            Value(Whole(s.batch).remainQuota, tokenId) + Value(Whole(s.batch).tokenUsedQuota, tokenId)
            + Owed(s.clients, L.TokenAccount(tokenId)) + Owed(s.clients, L.TokenUsedAccount(tokenId))
            == Value(db.remainQuota, tokenId) + Value(db.tokenUsedQuota, tokenId)
  {
    BalancesFollowPhases(db, steps, L.TokenAccount(tokenId));
    BalancesFollowPhases(db, steps, L.TokenUsedAccount(tokenId));
    hide Run, Whole;
    NoOtherTopUps(L.TokenAccount(tokenId), steps);
    NoOtherTopUps(L.TokenUsedAccount(tokenId), steps);
    L.TokenSharesCancel(db, tokenId, Requests(Run(db, steps).clients));
  }

  // ---- When all is done ----

  ghost predicate Settled(s: State) {
    && Batch.Drained(s.batch)
    && forall i :: 0 <= i < |s.clients| ==> s.clients[i].todo == [] && s.clients[i].request.phase.Finished?
  }

  lemma {:induction false} NothingOwed(clients: seq<Client>, account: L.Account)
    requires forall i :: 0 <= i < |clients| ==> clients[i].todo == []
    ensures Owed(clients, account) == 0
  {
    if clients != [] {
      NothingOwed(clients[..|clients| - 1], account);
    }
  }

  /** When every request is finished and the stores are drained, only the forgotten holds are missing from the rows. */
  lemma SettledQuotaConserved(db: Db, steps: seq<Step>, userId: int)
    requires userId in db.userQuota && userId in db.userUsedQuota
    requires L.OwnTokens(db, Requests(Run(db, steps).clients)) && Settled(Run(db, steps))
    ensures var s := Run(db, steps);
            Value(s.batch.db.userQuota, userId) + Value(s.batch.db.userUsedQuota, userId)
            + L.KeptHolds(userId, Requests(s.clients))
            == Value(db.userQuota, userId) + Value(db.userUsedQuota, userId) + ToppedUp(L.UserAccount(userId), steps)
  {
    var s := Run(db, steps);
    UserQuotaConserved(db, steps, userId);
    hide Run;
    Batch.DrainedIsEffective(s.batch);
    NothingOwed(s.clients, L.UserAccount(userId));
    NothingOwed(s.clients, L.UsedAccount(userId));
    L.FinishedOutstanding(userId, Requests(s.clients));
  }
}
