/**
  Batched quota updates.  Every counter has a store of deltas that requests add to.  The updater
  swaps a store for an empty one and then applies its deltas to the database, key by key, while
  requests go on recording.
 */
module BatchUpdater {
  import opened Collections
  import opened Database

  /** The buffered counters, in the order in which the updater visits them. */
  datatype Kind = UserQuota | TokenQuota | UsedQuota | ChannelUsedQuota | RequestCount

  const KINDS := [UserQuota, TokenQuota, UsedQuota, ChannelUsedQuota, RequestCount]

  type Deltas = map<int, int>

  function Delta(deltas: Deltas, id: int): int {
    if id in deltas then deltas[id] else 0
  }

  /** The delta store after one more record. */
  function Recorded(deltas: Deltas, id: int, value: int): Deltas {
    deltas[id := Delta(deltas, id) + value]
  }

  /** The database after one delta of one counter. */
  function Applied(db: Db, kind: Kind, id: int, value: int): Db {
    match kind
    case UserQuota => AddUserQuota(db, id, value)
    case TokenQuota => AddTokenQuota(db, id, value)
    case UsedQuota => AddUserUsedQuota(db, id, value)
    case ChannelUsedQuota => AddChannelUsedQuota(db, id, value)
    case RequestCount => AddRequestCount(db, id, value)
  }

  /** What is recorded for a counter but has not reached its row, wherever it waits. */
  type Pending = (Kind, int) -> int

  /** A column whose every row has received what is pending for counter `kind`, or minus that. */
  ghost function Shifted(column: Column, pending: Pending, kind: Kind, minus: bool): Column {
    map id | id in column :: column[id] + Signed(pending(kind, id), minus)
  }

  function Signed(value: int, minus: bool): int {
    if minus then -value else value
  }

  /** The rows as they will read once everything pending has arrived. */
  ghost function Effective(db: Db, pending: Pending): Db {
    db.(userQuota := Shifted(db.userQuota, pending, UserQuota, false),
        userUsedQuota := Shifted(db.userUsedQuota, pending, UsedQuota, false),
        requestCount := Shifted(db.requestCount, pending, RequestCount, false),
        remainQuota := Shifted(db.remainQuota, pending, TokenQuota, false),
        tokenUsedQuota := Shifted(db.tokenUsedQuota, pending, TokenQuota, true),
        channelUsedQuota := Shifted(db.channelUsedQuota, pending, ChannelUsedQuota, false))
  }

  /** `more` is `pending` with one more delta. */
  ghost predicate OneMore(pending: Pending, more: Pending, kind: Kind, id: int, value: int) {
    forall k: Kind, i :: more(k, i) == pending(k, i) + (if k == kind && i == id then value else 0)
  }

  lemma ColumnDelta(was: Column, now: Column, id: int, value: int)
    requires was.Keys == now.Keys
    requires forall i :: i in was ==> now[i] == was[i] + if i == id then value else 0
    ensures now == Added(was, id, value)
  {
    SameMap(now, Added(was, id, value));
  }

  lemma PendingDelta(column: Column, pending: Pending, more: Pending, kind: Kind, id: int, value: int, minus: bool)
    requires OneMore(pending, more, kind, id, value)
    ensures Shifted(column, more, kind, minus) == Added(Shifted(column, pending, kind, minus), id, Signed(value, minus))
  {
    ColumnDelta(Shifted(column, pending, kind, minus), Shifted(column, more, kind, minus), id, Signed(value, minus));
  }

  lemma ArrivingDelta(column: Column, pending: Pending, kind: Kind, id: int, value: int, minus: bool)
    ensures Shifted(Added(column, id, Signed(value, minus)), pending, kind, minus)
            == Added(Shifted(column, pending, kind, minus), id, Signed(value, minus))
  {
    ColumnDelta(Shifted(column, pending, kind, minus), Shifted(Added(column, id, Signed(value, minus)), pending, kind, minus),
                id, Signed(value, minus));
  }

  lemma ShiftedDelta(column: Column, pending: Pending, more: Pending, kind: Kind, id: int, value: int, minus: bool)
    requires OneMore(pending, more, kind, id, value)
    ensures Shifted(column, more, kind, minus) == Added(Shifted(column, pending, kind, minus), id, Signed(value, minus))
                                               == Shifted(Added(column, id, Signed(value, minus)), pending, kind, minus)
  {
    PendingDelta(column, pending, more, kind, id, value, minus);
    ArrivingDelta(column, pending, kind, id, value, minus);
  }

  lemma ShiftedSame(column: Column, pending: Pending, also: Pending, kind: Kind, minus: bool)
    requires forall id :: also(kind, id) == pending(kind, id)
    ensures Shifted(column, also, kind, minus) == Shifted(column, pending, kind, minus)
  {
    SameMap(Shifted(column, also, kind, minus), Shifted(column, pending, kind, minus));
  }

  /** A delta of one counter leaves the columns of the others as they are. */
  lemma OthersSame(db: Db, pending: Pending, more: Pending, kind: Kind, id: int, value: int)
    requires OneMore(pending, more, kind, id, value)
    ensures kind != UserQuota ==>
              Shifted(db.userQuota, more, UserQuota, false) == Shifted(db.userQuota, pending, UserQuota, false)
    ensures kind != UsedQuota ==>
              Shifted(db.userUsedQuota, more, UsedQuota, false) == Shifted(db.userUsedQuota, pending, UsedQuota, false)
    ensures kind != RequestCount ==>
              Shifted(db.requestCount, more, RequestCount, false) == Shifted(db.requestCount, pending, RequestCount, false)
    ensures kind != TokenQuota ==>
              && Shifted(db.remainQuota, more, TokenQuota, false) == Shifted(db.remainQuota, pending, TokenQuota, false)
              && Shifted(db.tokenUsedQuota, more, TokenQuota, true) == Shifted(db.tokenUsedQuota, pending, TokenQuota, true)
    ensures kind != ChannelUsedQuota ==>
              Shifted(db.channelUsedQuota, more, ChannelUsedQuota, false)
              == Shifted(db.channelUsedQuota, pending, ChannelUsedQuota, false)
  {
    if kind != UserQuota { ShiftedSame(db.userQuota, pending, more, UserQuota, false); }
    if kind != UsedQuota { ShiftedSame(db.userUsedQuota, pending, more, UsedQuota, false); }
    if kind != RequestCount { ShiftedSame(db.requestCount, pending, more, RequestCount, false); }
    if kind != TokenQuota { ShiftedSame(db.remainQuota, pending, more, TokenQuota, false); }
    if kind != TokenQuota { ShiftedSame(db.tokenUsedQuota, pending, more, TokenQuota, true); }
    if kind != ChannelUsedQuota { ShiftedSame(db.channelUsedQuota, pending, more, ChannelUsedQuota, false); }
  }

  /** A delta counts the same whether it is still pending, arrives now, or had arrived before. */
  lemma EffectiveDelta(db: Db, pending: Pending, more: Pending, kind: Kind, id: int, value: int)
    requires OneMore(pending, more, kind, id, value)
    ensures Effective(db, more) == Applied(Effective(db, pending), kind, id, value)
    ensures Effective(db, more) == Effective(Applied(db, kind, id, value), pending)
  {
    OthersSame(db, pending, more, kind, id, value);
    match kind {
      case UserQuota => ShiftedDelta(db.userQuota, pending, more, kind, id, value, false);
      case TokenQuota =>
        ShiftedDelta(db.remainQuota, pending, more, kind, id, value, false);
        ShiftedDelta(db.tokenUsedQuota, pending, more, kind, id, value, true);
      case UsedQuota => ShiftedDelta(db.userUsedQuota, pending, more, kind, id, value, false);
      case ChannelUsedQuota => ShiftedDelta(db.channelUsedQuota, pending, more, kind, id, value, false);
      case RequestCount => ShiftedDelta(db.requestCount, pending, more, kind, id, value, false);
    }
  }

  /** Only the amounts pending matter, not where they wait. */
  lemma EffectiveSame(db: Db, pending: Pending, also: Pending)
    requires forall k: Kind, i :: also(k, i) == pending(k, i)
    ensures Effective(db, also) == Effective(db, pending)
  {
    EffectiveDelta(db, pending, also, UserQuota, 0, 0);
    ZeroDelta(Effective(db, pending));
  }

  lemma ZeroDelta(db: Db)
    ensures Applied(db, UserQuota, 0, 0) == db
  {
    SameMap(Added(db.userQuota, 0, 0), db.userQuota);
  }

  lemma ShiftedNowhere(column: Column, pending: Pending, kind: Kind, minus: bool)
    requires forall id :: pending(kind, id) == 0
    ensures Shifted(column, pending, kind, minus) == column
  {
    SameMap(Shifted(column, pending, kind, minus), column);
  }

  lemma NothingPending(db: Db, pending: Pending)
    requires forall k: Kind, i :: pending(k, i) == 0
    ensures Effective(db, pending) == db
  {
    ShiftedNowhere(db.userQuota, pending, UserQuota, false);
    ShiftedNowhere(db.userUsedQuota, pending, UsedQuota, false);
    ShiftedNowhere(db.requestCount, pending, RequestCount, false);
    ShiftedNowhere(db.remainQuota, pending, TokenQuota, false);
    ShiftedNowhere(db.tokenUsedQuota, pending, TokenQuota, true);
    ShiftedNowhere(db.channelUsedQuota, pending, ChannelUsedQuota, false);
  }

  // ---- Interleavings of requests with the updater ----

  /** `draining` holds what was swapped out of the store of `kind` and is not yet applied. */
  datatype State = State(db: Db, stores: map<Kind, Deltas>, kind: Kind, draining: Deltas)

  /** One lock-protected record, one lock-protected swap, or one row update of the updater. */
  datatype Step =
    | Record(kind: Kind, id: int, value: int)
    | Swap(kind: Kind)
    | Apply(key: int)

  ghost predicate WellFormed(s: State) {
    forall kind: Kind :: kind in s.stores
  }

  lemma EveryKind(kind: Kind)
    ensures kind in KINDS
  {
    match kind {
      case UserQuota => assert KINDS[0] == kind;
      case TokenQuota => assert KINDS[1] == kind;
      case UsedQuota => assert KINDS[2] == kind;
      case ChannelUsedQuota => assert KINDS[3] == kind;
      case RequestCount => assert KINDS[4] == kind;
    }
  }

  function Start(db: Db): (s: State)
    ensures WellFormed(s)
  {
    assert forall kind: Kind :: kind in KINDS by {
      forall kind: Kind {
        EveryKind(kind);
      }
    }
    State(db, map kind | kind in KINDS :: map[], UserQuota, map[])
  }

  /** A step the program cannot take in a state leaves it as it is. */
  function Next(s: State, step: Step): (t: State)
    requires WellFormed(s)
    ensures WellFormed(t)
  {
    match step
    case Record(kind, id, value) => s.(stores := s.stores[kind := Recorded(s.stores[kind], id, value)])
    case Swap(kind) =>
      if s.draining == map[] then s.(kind := kind, draining := s.stores[kind], stores := s.stores[kind := map[]]) else s
    case Apply(key) =>
      if key in s.draining
      then s.(db := Applied(s.db, s.kind, key, s.draining[key]), draining := s.draining - {key}) else s
  }

  function Run(s: State, steps: seq<Step>): (t: State)
    requires WellFormed(s)
    ensures WellFormed(t)
  {
    if steps == [] then s else Next(Run(s, steps[..|steps| - 1]), steps[|steps| - 1])
  }

  /** The same requests with batching off: every record goes straight to its row. */
  function DirectRun(db: Db, steps: seq<Step>): Db {
    if steps == [] then db
    else
      var before, last := DirectRun(db, steps[..|steps| - 1]), steps[|steps| - 1];
      if last.Record? then Applied(before, last.kind, last.id, last.value) else before
  }

  ghost function PendingOf(s: State): Pending
    requires WellFormed(s)
  {
    (k: Kind, i: int) => Delta(s.stores[k], i) + (if k == s.kind then Delta(s.draining, i) else 0)
  }

  /** With nothing draining, it does not matter which store was drained last. */
  lemma IdleKind(s: State, kind: Kind)
    requires WellFormed(s) && s.draining == map[]
    ensures Effective(s.db, PendingOf(s.(kind := kind))) == Effective(s.db, PendingOf(s))
  {
    EffectiveSame(s.db, PendingOf(s), PendingOf(s.(kind := kind)));
  }

  /** What a swap takes out of a store it leaves to be applied. */
  lemma SwapKeepsPending(s: State, kind: Kind)
    requires WellFormed(s)
    ensures forall k: Kind, i :: PendingOf(Next(s, Swap(kind)))(k, i) == PendingOf(s)(k, i)
  {
    if s.draining == map[] {
      var t := Next(s, Swap(kind));
      assert t.stores == s.stores[kind := map[]] && t.draining == s.stores[kind] && t.kind == kind;
      forall k: Kind, i ensures PendingOf(t)(k, i) == PendingOf(s)(k, i) {
        assert Delta(s.draining, i) == 0 && Delta(map[], i) == 0;
      }
    }
  }

  lemma StepRefines(s: State, step: Step)
    requires WellFormed(s)
    ensures Effective(Next(s, step).db, PendingOf(Next(s, step)))
            == if step.Record? then Applied(Effective(s.db, PendingOf(s)), step.kind, step.id, step.value)
               else Effective(s.db, PendingOf(s))
  {
    var t := Next(s, step);
    match step {
      case Record(kind, id, value) =>
        EffectiveDelta(s.db, PendingOf(s), PendingOf(t), kind, id, value);
      case Swap(kind) =>
        SwapKeepsPending(s, kind);
        EffectiveSame(s.db, PendingOf(s), PendingOf(t));
      case Apply(key) =>
        if key in s.draining {
          assert forall i :: Delta(s.draining, i) == Delta(t.draining, i) + if i == key then s.draining[key] else 0;
          EffectiveDelta(s.db, PendingOf(t), PendingOf(s), s.kind, key, s.draining[key]);
        }
    }
  }

  /**
    Batching refines direct updating.  Whatever the interleaving of records, swaps and row updates,
    each row plus what is still pending for it is the row of the direct run.
   */
  lemma {:induction false} BatchedRefinesDirect(db: Db, steps: seq<Step>)
    ensures Effective(Run(Start(db), steps).db, PendingOf(Run(Start(db), steps))) == DirectRun(db, steps)
  {
    if steps == [] {
      NothingPending(db, PendingOf(Start(db)));
    } else {
      var before := Run(Start(db), steps[..|steps| - 1]);
      BatchedRefinesDirect(db, steps[..|steps| - 1]);
      StepRefines(before, steps[|steps| - 1]);
    }
  }

  ghost predicate Drained(s: State) {
    WellFormed(s) && s.draining == map[] && forall k: Kind :: s.stores[k] == map[]
  }

  lemma DrainedIsEffective(s: State)
    requires Drained(s)
    ensures Effective(s.db, PendingOf(s)) == s.db
  {
    NothingPending(s.db, PendingOf(s));
  }

  /** Once the stores are drained, the rows themselves are those of the direct run. */
  lemma DrainedRowsAreDirect(db: Db, steps: seq<Step>)
    requires Drained(Run(Start(db), steps))
    ensures Run(Start(db), steps).db == DirectRun(db, steps)
  {
    BatchedRefinesDirect(db, steps);
    DrainedIsEffective(Run(Start(db), steps));
  }
}
