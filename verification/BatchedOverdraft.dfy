/**
  With batching on the checks of a request read rows that do not show what earlier requests have
  recorded, so that requests one after the other overdraw a user without bound.
 */
module BatchedOverdraft {
  import opened Database
  import opened Quota
  import opened Billing
  import opened BatchedLedger
  import Batch = BatchUpdater
  import L = Ledger

  const LEAVES := L.TextExit(NoAdaptor)

  /** Past the last check, and its records not all made. */
  predicate Between(client: Client) {
    client.request.phase.TakeToken? || client.request.phase.TakeUser? || client.todo != []
  }

  ghost predicate NoneBetween(clients: seq<Client>) {
    forall i :: 0 <= i < |clients| ==> !Between(clients[i])
  }

  ghost predicate AtMostOneBetween(clients: seq<Client>) {
    forall i, j :: 0 <= i < j < |clients| ==> !Between(clients[i]) || !Between(clients[j])
  }

  /**
    Never more than one request between its check and its record, no estimate above `limit`, and
    neither top-ups nor the updater.
   */
  ghost predicate OneByOne(db: Db, steps: seq<Step>, limit: nat) {
    var clients := Run(db, steps).clients;
    && AtMostOneBetween(clients)
    && (forall i :: 0 <= i < |clients| ==> clients[i].request.estimate <= limit)
    && (steps != [] ==>
          && (steps[|steps| - 1].Arrive? || steps[|steps| - 1].Advance?)
          && OneByOne(db, steps[..|steps| - 1], limit))
  }

  /** A step after which only the last request can be between. */
  lemma OneByOneNext(db: Db, steps: seq<Step>, step: Step, others: seq<Client>, last: Client, limit: nat)
    requires OneByOne(db, steps, limit) && (step.Arrive? || step.Advance?)
    requires Next(Run(db, steps), step).clients == others + [last] && NoneBetween(others)
    requires (forall i :: 0 <= i < |others| ==> others[i].request.estimate <= limit) && last.request.estimate <= limit
    ensures Run(db, steps + [step]) == Next(Run(db, steps), step)
    ensures OneByOne(db, steps + [step], limit)
  {
    hide Next, Between;
    assert (steps + [step])[..|steps|] == steps;
  }

  /** Requests that have all recorded their holds and wait for their answers. */
  function Waiting(request: L.Request, k: nat): seq<Client> {
    seq(k, _ => Client(request.(phase := L.Await(request.estimate)), []))
  }

  /** The stores after `k` holds of a user were recorded. */
  function Recorded(db: Db, userId: int, hold: nat, k: nat): (batch: Batch.State)
    ensures Batch.WellFormed(batch) && batch.db == db
  {
    if k == 0 then Batch.Start(db) else Made(Recorded(db, userId, hold, k - 1), Record(Batch.UserQuota, userId, 0 - hold))
  }

  lemma {:induction false} RecordedBalance(db: Db, userId: int, hold: nat, k: nat)
    requires userId in db.userQuota
    ensures var (whole, account) := (Whole(Recorded(db, userId, hold, k)), L.UserAccount(userId));
            L.Present(whole, account) && L.Balance(whole, account) == db.userQuota[userId] - k * hold
  {
    hide Made, Whole;
    var account := L.UserAccount(userId);
    if k == 0 {
      StartIsWhole(db);
    } else {
      RecordedBalance(db, userId, hold, k - 1);
      MadeMoves(Recorded(db, userId, hold, k - 1), Record(Batch.UserQuota, userId, 0 - hold), account);
      assert k * hold == (k - 1) * hold + hold;
    }
  }

  lemma StartIsWhole(db: Db)
    ensures Whole(Batch.Start(db)) == db
  {
    Batch.NothingPending(db, Batch.PendingOf(Batch.Start(db)));
  }

  /** One step of the last request, all others waiting. */
  lemma LastMoves(db: Db, steps: seq<Step>, batch: Batch.State, others: seq<Client>, client: Client, moved: Client, limit: nat)
    requires Batch.WellFormed(batch) && Run(db, steps) == State(batch, others + [client]) && OneByOne(db, steps, limit)
    requires NoneBetween(others) && forall i :: 0 <= i < |others| ==> others[i].request.estimate <= limit
    requires client.todo == [] && client.request.estimate <= limit
    requires moved == Client(client.request.(phase := L.Moved(batch.db, client.request, LEAVES)),
                             Records(L.Issued(batch.db, client.request)))
    ensures var next := steps + [Advance(|others|, LEAVES)];
            Run(db, next) == State(batch, others + [moved]) && OneByOne(db, next, limit)
  {
    hide L.Moved, L.Issued, Records, OneByOne, NoneBetween;
    assert (others + [client])[|others| := moved] == others + [moved];
    OneByOneNext(db, steps, Advance(|others|, LEAVES), others, moved, limit);
  }

  lemma LastRecords(db: Db, steps: seq<Step>, batch: Batch.State, others: seq<Client>, client: Client, record: Record, limit: nat)
    requires Batch.WellFormed(batch) && Run(db, steps) == State(batch, others + [client]) && OneByOne(db, steps, limit)
    requires NoneBetween(others) && forall i :: 0 <= i < |others| ==> others[i].request.estimate <= limit
    requires client.todo == [record] && client.request.estimate <= limit
    ensures var next := steps + [Advance(|others|, LEAVES)];
            Run(db, next) == State(Made(batch, record), others + [client.(todo := [])]) && OneByOne(db, next, limit)
  {
    hide L.Moved, L.Issued, Made, OneByOne, NoneBetween;
    var done := client.(todo := []);
    assert [record][1..] == [];
    assert (others + [client])[|others| := done] == others + [done];
    OneByOneNext(db, steps, Advance(|others|, LEAVES), others, done, limit);
  }

  /** A request of a user whose row shows just one hold. */
  ghost predicate Passes(db: Db, request: L.Request) {
    var (meta, hold) := (request.meta, request.estimate);
    && request.phase == L.ReadBalance && !request.audio && hold >= 1
    && TokenFound(db, meta.tokenId) && Unlimited(db, meta.tokenId) && db.owner[meta.tokenId] == meta.userId
    && meta.userId in db.userQuota && db.userQuota[meta.userId] == hold
  }

  /** What each phase of such a request leads to, whatever was recorded before. */
  lemma Course(db: Db, request: L.Request, hold: nat)
    requires Passes(db, request) && hold == request.estimate
    ensures L.Moved(db, request, LEAVES) == L.ReadToken(hold)
    ensures L.Moved(db, request.(phase := L.ReadToken(hold)), LEAVES) == L.ReadUser(hold)
    ensures L.Moved(db, request.(phase := L.ReadUser(hold)), LEAVES) == L.TakeToken(hold)
    ensures L.Moved(db, request.(phase := L.TakeToken(hold)), LEAVES) == L.TakeUser(hold)
    ensures L.Moved(db, request.(phase := L.TakeUser(hold)), LEAVES) == L.Await(hold)
    ensures Records(L.Issued(db, request)) == []
    ensures Records(L.Issued(db, request.(phase := L.ReadToken(hold)))) == []
    ensures Records(L.Issued(db, request.(phase := L.ReadUser(hold)))) == []
    ensures Records(L.Issued(db, request.(phase := L.TakeToken(hold)))) == []
    ensures Records(L.Issued(db, request.(phase := L.TakeUser(hold))))
            == [Record(Batch.UserQuota, request.meta.userId, 0 - hold)]
  {
  }

  lemma WaitingAreQuiet(request: L.Request, k: nat)
    ensures NoneBetween(Waiting(request, k))
    ensures forall i :: 0 <= i < k ==> Waiting(request, k)[i].request.estimate <= request.estimate
  {
  }

  lemma OneArrives(db: Db, steps: seq<Step>, batch: Batch.State, request: L.Request, k: nat)
    requires Batch.WellFormed(batch) && request.phase == L.ReadBalance && !request.audio
    requires Run(db, steps) == State(batch, Waiting(request, k)) && OneByOne(db, steps, request.estimate)
    ensures var next := steps + [Arrive(request.meta, false, request.estimate)];
            Run(db, next) == State(batch, Waiting(request, k) + [Client(request, [])]) && OneByOne(db, next, request.estimate)
  {
    hide OneByOne, NoneBetween;
    WaitingAreQuiet(request, k);
    OneByOneNext(db, steps, Arrive(request.meta, false, request.estimate), Waiting(request, k), Client(request, []), request.estimate);
  }

  /** One more request comes, passes its checks, records its hold and waits. */
  lemma OneMore(db: Db, steps: seq<Step>, request: L.Request, k: nat) returns (more: seq<Step>)
    requires Passes(db, request) && OneByOne(db, steps, request.estimate)
    requires Run(db, steps) == State(Recorded(db, request.meta.userId, request.estimate, k), Waiting(request, k))
    ensures Run(db, more) == State(Recorded(db, request.meta.userId, request.estimate, k + 1), Waiting(request, k + 1))
    ensures OneByOne(db, more, request.estimate)
  {
    var hold: nat := request.estimate;
    var (batch, others) := (Recorded(db, request.meta.userId, hold, k), Waiting(request, k));
    var debit: int := 0 - hold;
    var record := Record(Batch.UserQuota, request.meta.userId, debit);
    Course(db, request, hold);
    WaitingAreQuiet(request, k);
    assert Recorded(db, request.meta.userId, hold, k + 1) == Made(batch, record);
    assert others + [Client(request.(phase := L.Await(hold)), [])] == Waiting(request, k + 1);
    hide Run, OneByOne, NoneBetween, L.Moved, L.Issued, Records, Waiting, Recorded, Passes, Made;
    var advance := [Advance(|others|, LEAVES)];
    OneArrives(db, steps, batch, request, k);
    more := steps + [Arrive(request.meta, false, hold)];
    LastMoves(db, more, batch, others, Client(request, []), Client(request.(phase := L.ReadToken(hold)), []), hold);
    more := more + advance;
    LastMoves(db, more, batch, others, Client(request.(phase := L.ReadToken(hold)), []), Client(request.(phase := L.ReadUser(hold)), []), hold);
    more := more + advance;
    LastMoves(db, more, batch, others, Client(request.(phase := L.ReadUser(hold)), []), Client(request.(phase := L.TakeToken(hold)), []), hold);
    more := more + advance;
    LastMoves(db, more, batch, others, Client(request.(phase := L.TakeToken(hold)), []), Client(request.(phase := L.TakeUser(hold)), []), hold);
    more := more + advance;
    LastMoves(db, more, batch, others, Client(request.(phase := L.TakeUser(hold)), []), Client(request.(phase := L.Await(hold)), [record]), hold);
    more := more + advance;
    LastRecords(db, more, batch, others, Client(request.(phase := L.Await(hold)), [record]), record, hold);
    more := more + advance;
  }

  lemma NobodyWaits(db: Db, request: L.Request)
    ensures Run(db, []) == State(Recorded(db, request.meta.userId, request.estimate, 0), Waiting(request, 0))
    ensures OneByOne(db, [], request.estimate)
  {
    assert Waiting(request, 0) == [];
  }

  lemma {:induction false} AllRecorded(db: Db, request: L.Request, k: nat) returns (steps: seq<Step>)
    requires Passes(db, request)
    ensures Run(db, steps) == State(Recorded(db, request.meta.userId, request.estimate, k), Waiting(request, k))
    ensures OneByOne(db, steps, request.estimate)
  {
    hide Run, OneByOne, Recorded, Waiting, Passes;
    if k == 0 {
      steps := [];
      NobodyWaits(db, request);
    } else {
      steps := AllRecorded(db, request, k - 1);
      steps := OneMore(db, steps, request, k - 1);
    }
  }

  /**
    For every `k` a run of requests that go one by one takes a user from one hold to k - 1 holds below
    nothing, in the row and what is pending for it, while the row still shows the hold.
   */
  lemma BatchingOverdraws(db: Db, meta: Meta, hold: nat, k: nat) returns (steps: seq<Step>)
    requires hold >= 1 && TokenFound(db, meta.tokenId) && Unlimited(db, meta.tokenId)
    requires db.owner[meta.tokenId] == meta.userId && meta.userId in db.userQuota && db.userQuota[meta.userId] == hold
    ensures OneByOne(db, steps, hold)
    ensures var s := Run(db, steps);
            && s.batch.db == db
            && L.Balance(Whole(s.batch), L.UserAccount(meta.userId)) == (1 - k) * hold
  {
    hide Run, OneByOne, Whole, Recorded;
    steps := AllRecorded(db, L.Request(meta, false, hold, L.ReadBalance), k);
    RecordedBalance(db, meta.userId, hold, k);
    Products(hold, k);
    assert Run(db, steps).batch == Recorded(db, meta.userId, hold, k);
    RecordedRows(db, meta.userId, hold, k);
  }

  lemma RecordedRows(db: Db, userId: int, hold: nat, k: nat)
    ensures Recorded(db, userId, hold, k).db == db
  {
  }

  lemma Products(hold: nat, k: nat)
    ensures hold - k * hold == (1 - k) * hold
  {
  }
}
