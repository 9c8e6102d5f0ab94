/**
  The table of channels, and the table of abilities that says which channels serve a model to a
  group.  The second repeats what the first says, and every operation has to keep them in step.
 */
module Abilities {
  import opened Strings
  import opened Wrappers

  const ENABLED := 1
  const MANUALLY_DISABLED := 2
  const AUTO_DISABLED := 3

  /** A channel as an administrator sends it; 0, "" and None stand for fields that were left out. */
  datatype Channel = Channel(status: int, models: string, group: string, priority: Option<int>)

  /** A channel as it is stored. */
  datatype Row = Row(status: int, models: string, group: string, priority: int)

  /** The primary key of an ability. */
  datatype Key = Key(group: string, model: string, id: int)

  datatype Ability = Ability(enabled: bool, priority: int)

  /** `nextId` is the id of the next new channel. */
  datatype Table = Table(channels: map<int, Row>, abilities: map<Key, Ability>, nextId: int)

  const EMPTY := Table(map[], map[], 1)

  /** Columns that are left out of an insertion get their default values. */
  function AsInserted(channel: Channel): Row {
    Row(if channel.status == 0 then ENABLED else channel.status, channel.models,
        if channel.group == "" then "default" else channel.group, AsGiven(channel).priority)
  }

  function AsGiven(channel: Channel): Row {
    Row(channel.status, channel.models, channel.group,
        if channel.priority.Some? then channel.priority.value else 0)
  }

  /** Columns that are left out of an update stay as they are. */
  function Patched(row: Row, channel: Channel): Row {
    Row(if channel.status == 0 then row.status else channel.status,
        if channel.models == "" then row.models else channel.models,
        if channel.group == "" then row.group else channel.group,
        if channel.priority.Some? then channel.priority.value else row.priority)
  }

  predicate Lists(row: Row, group: string, model: string) {
    group in Entries(row.group) && model in Entries(row.models)
  }

  function AbilityOf(row: Row): Ability {
    Ability(row.status == ENABLED, row.priority)
  }

  // ---- What the tables promise ----

  /** A channel has exactly the abilities it lists, as they should be; others are disabled. */
  predicate Agrees(t: Table, k: Key) {
    if k.id in t.channels then
      && (k in t.abilities <==> Lists(t.channels[k.id], k.group, k.model))
      && (k in t.abilities ==> t.abilities[k] == AbilityOf(t.channels[k.id]))
    else k in t.abilities ==> !t.abilities[k].enabled
  }

  ghost predicate AllAgree(t: Table) {
    forall k: Key :: Agrees(t, k)
  }

  ghost predicate IdsBelow(t: Table) {
    (forall id :: id in t.channels ==> 0 < id < t.nextId) && (forall k :: k in t.abilities ==> k.id < t.nextId) && 0 < t.nextId
  }

  ghost predicate Consistent(t: Table) {
    AllAgree(t) && IdsBelow(t)
  }

  // ---- What the operations do ----

  function Without(abilities: map<Key, Ability>, id: int): map<Key, Ability> {
    map k | k in abilities && k.id != id :: abilities[k]
  }

  function Keys(row: Row, id: int): set<Key> {
    set group, model | group in Entries(row.group) && model in Entries(row.models) :: Key(group, model, id)
  }

  predicate Unused(abilities: map<Key, Ability>, row: Row, id: int) {
    forall k :: k in Keys(row, id) ==> k !in abilities
  }

  /** The abilities of a channel go in together, or not at all. */
  function AbilitiesAdded(t: Table, id: int, row: Row): (Table, bool) {
    if Distinct(Entries(row.group)) && Unused(t.abilities, row, id) then
      (t.(abilities := t.abilities + map k | k in Keys(row, id) :: AbilityOf(row)), true)
    else (t, false)
  }

  function RowsCreated(t: Table, channels: seq<Channel>): Table
    decreases |channels|
  {
    if channels == [] then t
    else RowsCreated(t.(channels := t.channels[t.nextId := AsInserted(channels[0])], nextId := t.nextId + 1), channels[1..])
  }

  /** The abilities of new channels, up to the first channel whose abilities are refused. */
  function AllAbilitiesAdded(t: Table, id: int, channels: seq<Channel>): (Table, bool)
    decreases |channels|
  {
    if channels == [] then (t, true)
    else
      var (next, ok) := AbilitiesAdded(t, id, AsInserted(channels[0]));
      if ok then AllAbilitiesAdded(next, id + 1, channels[1..]) else (next, false)
  }

  function BatchInserted(t: Table, channels: seq<Channel>): (Table, bool) {
    if channels == [] then (t, false) else AllAbilitiesAdded(RowsCreated(t, channels), t.nextId, channels)
  }

  function Updated(t: Table, id: int, channel: Channel): (Table, bool) {
    if id == 0 then (t, false)
    else
      var channels := if id in t.channels then t.channels[id := Patched(t.channels[id], channel)] else t.channels;
      var row := if id in channels then channels[id] else AsGiven(channel);
      AbilitiesAdded(t.(channels := channels, abilities := Without(t.abilities, id)), id, row)
  }

  function Deleted(t: Table, id: int): Table {
    if id == 0 then t else t.(channels := t.channels - {id}, abilities := Without(t.abilities, id))
  }

  function StatusSet(t: Table, id: int, status: int): Table {
    t.(channels := if id in t.channels then t.channels[id := t.channels[id].(status := status)] else t.channels,
       abilities := map k | k in t.abilities ::
         if k.id == id then t.abilities[k].(enabled := status == ENABLED) else t.abilities[k])
  }

  predicate Disabled(row: Row) {
    row.status == AUTO_DISABLED || row.status == MANUALLY_DISABLED
  }

  function DisabledDeleted(t: Table): Table {
    t.(channels := map id | id in t.channels && !Disabled(t.channels[id]) :: t.channels[id])
  }

  // ---- Building the abilities of a channel ----

  function KeysFor(groups: seq<string>, model: string, id: int): seq<Key> {
    seq(|groups|, j requires 0 <= j < |groups| => Key(groups[j], model, id))
  }

  function KeyList(groups: seq<string>, models: seq<string>, id: int): seq<Key> {
    if models == [] then []
    else KeyList(groups, models[..|models| - 1], id) + KeysFor(groups, models[|models| - 1], id)
  }

  /** An insertion of several rows: none goes in when one of the keys is taken. */
  function Created(abilities: map<Key, Ability>, keys: seq<Key>, ability: Ability): Option<map<Key, Ability>> {
    if keys == [] then Some(abilities)
    else
      var (before, key) := (Created(abilities, keys[..|keys| - 1], ability), keys[|keys| - 1]);
      if before.None? || key in before.value then None else Some(before.value[key := ability])
  }

  lemma {:induction false} CreatedIff(abilities: map<Key, Ability>, keys: seq<Key>, ability: Ability)
    ensures Created(abilities, keys, ability).Some? <==> Distinct(keys) && forall k :: k in keys ==> k !in abilities
    ensures var created := Created(abilities, keys, ability);
            created.Some? ==> forall k :: (k in created.value <==> k in abilities || k in keys)
                                       && (k in created.value ==> created.value[k] == if k in keys then ability else abilities[k])
  {
    if keys != [] {
      var n := |keys| - 1;
      CreatedIff(abilities, keys[..n], ability);
      assert keys == keys[..n] + [keys[n]];
      DistinctSnoc(keys[..n], keys[n]);
    }
  }

  lemma DistinctSnoc<T>(s: seq<T>, x: T)
    ensures Distinct(s + [x]) <==> Distinct(s) && x !in s
  {
    var t := s + [x];
    if Distinct(t) {
      forall i, j | 0 <= i < j < |s| ensures s[i] != s[j] {
        assert t[i] != t[j];
      }
      forall i | 0 <= i < |s| ensures s[i] != x {
        assert t[i] != t[|s|];
      }
    }
  }

  lemma DistinctConcat<T>(s: seq<T>, t: seq<T>)
    requires forall x :: x in s ==> x !in t
    ensures Distinct(s + t) <==> Distinct(s) && Distinct(t)
  {
    var u := s + t;
    if Distinct(u) {
      forall i, j | 0 <= i < j < |s| ensures s[i] != s[j] {
        assert u[i] != u[j];
      }
      forall i, j | 0 <= i < j < |t| ensures t[i] != t[j] {
        assert u[|s| + i] != u[|s| + j];
      }
    }
    if Distinct(s) && Distinct(t) {
      forall i, j | 0 <= i < j < |u| ensures u[i] != u[j] {
        assert i < |s| ==> u[i] in s;
        assert j >= |s| ==> u[j] in t;
      }
    }
  }

  lemma KeysForDistinct(groups: seq<string>, model: string, id: int)
    ensures Distinct(KeysFor(groups, model, id)) <==> Distinct(groups)
    ensures forall k :: k in KeysFor(groups, model, id) <==> k.id == id && k.model == model && k.group in groups
  {
    var keys := KeysFor(groups, model, id);
    forall k: Key | k.id == id && k.model == model && k.group in groups ensures k in keys {
      var j :| 0 <= j < |groups| && groups[j] == k.group;
      assert keys[j] == k;
    }
    if Distinct(keys) {
      forall i, j | 0 <= i < j < |groups| ensures groups[i] != groups[j] {
        assert keys[i] != keys[j];
      }
    }
  }

  /** As no model comes twice, a key comes twice only when a group does. */
  lemma {:induction false} KeyListDistinct(groups: seq<string>, models: seq<string>, id: int)
    requires Distinct(models)
    ensures forall k :: k in KeyList(groups, models, id) <==> k.id == id && k.model in models && k.group in groups
    ensures models != [] ==> (Distinct(KeyList(groups, models, id)) <==> Distinct(groups))
  {
    if models != [] {
      var n := |models| - 1;
      assert models == models[..n] + [models[n]];
      DistinctSnoc(models[..n], models[n]);
      KeyListDistinct(groups, models[..n], id);
      KeysForDistinct(groups, models[n], id);
      DistinctConcat(KeyList(groups, models[..n], id), KeysFor(groups, models[n], id));
      if n == 0 {
        assert KeyList(groups, models, id) == KeysFor(groups, models[0], id);
      }
    }
  }

  lemma CreatedIsAdded(t: Table, id: int, row: Row, models: seq<string>)
    requires Distinct(models) && models != [] && forall m :: m in models <==> m in Entries(row.models)
    ensures var created := Created(t.abilities, KeyList(Entries(row.group), models, id), AbilityOf(row));
            AbilitiesAdded(t, id, row) ==
            if created.Some? then (t.(abilities := created.value), true) else (t, false)
  {
    hide Distinct, Entries, Created, KeyList, AbilityOf;
    var keys := KeyList(Entries(row.group), models, id);
    KeyListDistinct(Entries(row.group), models, id);
    CreatedIff(t.abilities, keys, AbilityOf(row));
    var created := Created(t.abilities, keys, AbilityOf(row));
    assert forall k :: k in keys <==> k in Keys(row, id);
    if created.Some? {
      assert created.value == t.abilities + map k | k in Keys(row, id) :: AbilityOf(row);
    }
  }

  // ---- What keeps the tables in step ----

  datatype Op =
    | BatchInsert(channels: seq<Channel>)
    | Update(id: int, channel: Channel)
    | Delete(id: int)
    | SetStatus(id: int, status: int)
    | DeleteDisabled

  function Step(t: Table, op: Op): Table {
    match op
    case BatchInsert(channels) => BatchInserted(t, channels).0
    case Update(id, channel) => Updated(t, id, channel).0
    case Delete(id) => Deleted(t, id)
    case SetStatus(id, status) => StatusSet(t, id, status)
    case DeleteDisabled => DisabledDeleted(t)
  }

  predicate NoGroupTwice(group: string) {
    Distinct(Entries(group))
  }

  /**
    No group is listed twice, a channel that does not exist is not enabled by an update, and not
    by a change of status either while abilities of it are left.
   */
  ghost predicate Safe(t: Table, op: Op) {
    match op
    case BatchInsert(channels) => forall i :: 0 <= i < |channels| ==> NoGroupTwice(AsInserted(channels[i]).group)
    case Update(id, channel) =>
      id == 0
      || (if id in t.channels then NoGroupTwice(Patched(t.channels[id], channel).group)
          else NoGroupTwice(channel.group) ==> channel.status != ENABLED && id < t.nextId)
    case SetStatus(id, status) =>
      id in t.channels || status != ENABLED || forall k :: k in t.abilities ==> k.id != id
    case _ => true
  }

  lemma KeysAre(row: Row, id: int, k: Key)
    ensures k in Keys(row, id) <==> k.id == id && Lists(row, k.group, k.model)
  {
    assert k == Key(k.group, k.model, k.id);
  }

  /** The rows and abilities of other channels are as before. */
  ghost predicate SameElsewhere(t: Table, u: Table, id: int) {
    forall k: Key :: k.id != id ==>
      && (k.id in t.channels <==> k.id in u.channels) && (k in t.abilities <==> k in u.abilities)
      && (k.id in t.channels ==> t.channels[k.id] == u.channels[k.id])
      && (k in t.abilities ==> t.abilities[k] == u.abilities[k])
  }

  ghost predicate AllAgreeAt(t: Table, id: int) {
    forall k: Key :: k.id == id ==> Agrees(t, k)
  }

  lemma AgreeElsewhere(t: Table, u: Table, id: int)
    requires SameElsewhere(t, u, id) && forall k: Key :: k.id != id ==> Agrees(t, k)
    ensures AllAgree(u) <==> AllAgreeAt(u, id)
  {
    forall k: Key | k.id != id ensures Agrees(u, k) {
      assert Agrees(t, k);
    }
  }

  /** Adding abilities to a channel that has none. */
  lemma AddedAgree(t: Table, id: int, row: Row)
    requires forall k :: k in t.abilities ==> k.id != id
    requires id in t.channels ==> t.channels[id] == row
    ensures var (u, ok) := AbilitiesAdded(t, id, row);
            && SameElsewhere(t, u, id) && u.channels == t.channels && u.nextId == t.nextId
            && (ok <==> NoGroupTwice(row.group))
            && (!ok ==> u == t)
            && (AllAgreeAt(u, id) <==> if id in t.channels then ok else ok ==> row.status != ENABLED)
            && (ok ==> forall k: Key :: k in u.abilities && k.id == id <==> k in Keys(row, id))
  {
    hide Entries;
    var (u, ok) := AbilitiesAdded(t, id, row);
    forall k: Key ensures k in Keys(row, id) <==> k.id == id && Lists(row, k.group, k.model) {
      KeysAre(row, id, k);
    }
    var k := Key(Entries(row.group)[0], Entries(row.models)[0], id);
    assert Lists(row, k.group, k.model);
    if AllAgreeAt(u, id) {
      assert Agrees(u, k);
    }
  }

  lemma UpdatedConsistentIff(t: Table, id: int, channel: Channel)
    requires Consistent(t)
    ensures Consistent(Updated(t, id, channel).0) <==> Safe(t, Update(id, channel))
  {
    hide Entries, NoGroupTwice, AbilitiesAdded, Keys, Patched, AsGiven;
    if id != 0 {
      var channels := if id in t.channels then t.channels[id := Patched(t.channels[id], channel)] else t.channels;
      var row := if id in channels then channels[id] else AsGiven(channel);
      var bare := t.(channels := channels, abilities := Without(t.abilities, id));
      var (u, ok) := AbilitiesAdded(bare, id, row);
      AddedAgree(bare, id, row);
      AgreeElsewhere(t, u, id);
      GroupGiven(channel);
      var k := Key(Entries(row.group)[0], Entries(row.models)[0], id);
      KeysAre(row, id, k);
      assert ok ==> (k in u.abilities && k.id == id);
    }
  }

  lemma GroupGiven(channel: Channel)
    ensures AsGiven(channel).group == channel.group && AsGiven(channel).status == channel.status
  {
  }

  /** An update that is not refused puts a channel right, whatever its abilities were. */
  lemma UpdateRepairs(t: Table, id: int, channel: Channel)
    requires id in t.channels && id != 0
    ensures var (u, ok) := Updated(t, id, channel);
            && id in u.channels && u.channels[id] == Patched(t.channels[id], channel)
            && (ok <==> NoGroupTwice(Patched(t.channels[id], channel).group))
            && (ok <==> AllAgreeAt(u, id))
            && SameElsewhere(t, u, id)
  {
    hide Entries, NoGroupTwice, AbilitiesAdded, Keys, Patched, Agrees;
    var row := Patched(t.channels[id], channel);
    AddedAgree(t.(channels := t.channels[id := row], abilities := Without(t.abilities, id)), id, row);
  }

  lemma StatusSetConsistentIff(t: Table, id: int, status: int)
    requires Consistent(t)
    ensures Consistent(StatusSet(t, id, status)) <==> Safe(t, SetStatus(id, status))
  {
    var u := StatusSet(t, id, status);
    hide Entries;
    forall k: Key | k.id != id || Safe(t, SetStatus(id, status)) ensures Agrees(u, k) {
      assert Agrees(t, k);
    }
    if AllAgree(u) && id !in t.channels && status == ENABLED {
      forall k | k in t.abilities ensures k.id != id {
        assert Agrees(u, k);
      }
    }
  }

  lemma DeletedConsistent(t: Table, id: int)
    requires Consistent(t)
    ensures Consistent(Deleted(t, id))
  {
    hide Entries;
    var u := Deleted(t, id);
    forall k: Key ensures Agrees(u, k) {
      assert Agrees(t, k);
    }
  }

  lemma DisabledDeletedConsistent(t: Table)
    requires Consistent(t)
    ensures Consistent(DisabledDeleted(t))
  {
    hide Entries;
    var u := DisabledDeleted(t);
    forall k: Key ensures Agrees(u, k) {
      assert Agrees(t, k);
    }
  }

  /** The channels below `id` have their abilities, and no other has any. */
  ghost predicate ConsistentBelow(t: Table, id: int) {
    && 0 < id <= t.nextId
    && (forall i :: i in t.channels ==> 0 < i < t.nextId)
    && (forall k :: k in t.abilities ==> k.id < id)
    && (forall k: Key :: k.id < id ==> Agrees(t, k))
  }

  /** The rows from `id` on are those of `channels`. */
  ghost predicate RowsFrom(t: Table, id: int, channels: seq<Channel>) {
    forall j :: id <= j < id + |channels| ==> j in t.channels && t.channels[j] == AsInserted(channels[j - id])
  }

  lemma {:induction false} RowsCreatedAre(t: Table, channels: seq<Channel>)
    ensures var u := RowsCreated(t, channels);
            && u.abilities == t.abilities && u.nextId == t.nextId + |channels|
            && (forall id :: id in u.channels <==> id in t.channels || t.nextId <= id < u.nextId)
            && (forall id :: id in t.channels && id < t.nextId ==> u.channels[id] == t.channels[id])
            && RowsFrom(u, t.nextId, channels)
    decreases |channels|
  {
    hide AsInserted;
    if channels != [] {
      var next := t.(channels := t.channels[t.nextId := AsInserted(channels[0])], nextId := t.nextId + 1);
      RowsCreatedAre(next, channels[1..]);
      var u := RowsCreated(t, channels);
      forall j | t.nextId <= j < u.nextId ensures u.channels[j] == AsInserted(channels[j - t.nextId]) {
        if j > t.nextId {
          assert channels[1..][j - next.nextId] == channels[j - t.nextId];
        }
      }
    }
  }

  lemma AddedBelow(t: Table, id: int, row: Row)
    requires ConsistentBelow(t, id) && id in t.channels && t.channels[id] == row
    ensures var (u, ok) := AbilitiesAdded(t, id, row);
            && u.channels == t.channels && u.nextId == t.nextId
            && (ok <==> NoGroupTwice(row.group))
            && (ok ==> ConsistentBelow(u, id + 1))
            && (!ok ==> !Consistent(u))
  {
    hide Entries, NoGroupTwice, AbilitiesAdded, Keys;
    AddedAgree(t, id, row);
    var (u, ok) := AbilitiesAdded(t, id, row);
    if ok {
      forall k: Key | k.id < id + 1 ensures Agrees(u, k) {
        if k.id < id {
          assert Agrees(t, k);
        }
      }
      forall k | k in u.abilities ensures k.id < id + 1 {
        if k.id != id {
          assert k in t.abilities;
        }
      }
    }
  }

  lemma {:induction false} AllAddedConsistentIff(t: Table, id: int, channels: seq<Channel>)
    requires ConsistentBelow(t, id) && id + |channels| == t.nextId
    requires RowsFrom(t, id, channels)
    ensures var (u, ok) := AllAbilitiesAdded(t, id, channels);
            && (ok <==> Safe(t, BatchInsert(channels)))
            && (ok <==> Consistent(u))
    decreases |channels|
  {
    hide NoGroupTwice, AbilitiesAdded, AsInserted;
    if channels != [] {
      var row := AsInserted(channels[0]);
      assert id in t.channels;
      AddedBelow(t, id, row);
      var (next, ok) := AbilitiesAdded(t, id, row);
      if ok {
        assert RowsFrom(next, id + 1, channels[1..]);
        AllAddedConsistentIff(next, id + 1, channels[1..]);
        SafeRest(t, next, channels);
      }
    }
  }

  lemma SafeRest(t: Table, u: Table, channels: seq<Channel>)
    requires channels != []
    ensures Safe(t, BatchInsert(channels)) <==>
            NoGroupTwice(AsInserted(channels[0]).group) && Safe(u, BatchInsert(channels[1..]))
  {
    hide NoGroupTwice, AsInserted;
    if Safe(u, BatchInsert(channels[1..])) && NoGroupTwice(AsInserted(channels[0]).group) {
      forall i | 0 <= i < |channels| ensures NoGroupTwice(AsInserted(channels[i]).group) {
        if i > 0 {
          assert NoGroupTwice(AsInserted(channels[1..][i - 1]).group);
        }
      }
    }
  }

  lemma BatchInsertedConsistentIff(t: Table, channels: seq<Channel>)
    requires Consistent(t)
    ensures Consistent(BatchInserted(t, channels).0) <==> Safe(t, BatchInsert(channels))
    ensures channels != [] ==> (BatchInserted(t, channels).1 <==> Safe(t, BatchInsert(channels)))
  {
    hide NoGroupTwice, AsInserted, AllAbilitiesAdded, RowsCreated, Entries;
    if channels != [] {
      var u := RowsCreated(t, channels);
      RowsCreatedAre(t, channels);
      forall k: Key | k.id < t.nextId ensures Agrees(u, k) {
        assert Agrees(t, k);
      }
      AllAddedConsistentIff(u, t.nextId, channels);
    }
  }

  /** An operation leaves the tables in step exactly when it is safe. */
  lemma StepConsistentIff(t: Table, op: Op)
    requires Consistent(t)
    ensures Consistent(Step(t, op)) <==> Safe(t, op)
  {
    hide Consistent, Safe, Updated, BatchInserted, Deleted, StatusSet, DisabledDeleted;
    match op
    case BatchInsert(channels) => BatchInsertedConsistentIff(t, channels);
    case Update(id, channel) => UpdatedConsistentIff(t, id, channel);
    case Delete(id) => DeletedConsistent(t, id); AlwaysSafe(t, op);
    case SetStatus(id, status) => StatusSetConsistentIff(t, id, status);
    case DeleteDisabled => DisabledDeletedConsistent(t); AlwaysSafe(t, op);
  }

  lemma AlwaysSafe(t: Table, op: Op)
    requires op.Delete? || op.DeleteDisabled?
    ensures Safe(t, op)
  {
  }

  function Run(t: Table, ops: seq<Op>): Table
    decreases |ops|
  {
    if ops == [] then t else Run(Step(t, ops[0]), ops[1..])
  }

  ghost predicate AllSafe(t: Table, ops: seq<Op>)
    decreases |ops|
  {
    ops != [] ==> Safe(t, ops[0]) && AllSafe(Step(t, ops[0]), ops[1..])
  }

  /** From tables in step, every prefix of a run is consistent exactly when every operation is safe. */
  lemma {:induction false} RunConsistentIff(t: Table, ops: seq<Op>)
    requires Consistent(t)
    ensures (forall n :: 0 <= n <= |ops| ==> Consistent(Run(t, ops[..n]))) <==> AllSafe(t, ops)
    decreases |ops|
  {
    hide Consistent, Safe, Step;
    if ops == [] {
      assert ops[..0] == [];
    } else {
      var next := Step(t, ops[0]);
      forall n | 0 <= n < |ops| ensures Run(t, ops[..n + 1]) == Run(next, ops[1..][..n]) {
        assert ops[..n + 1][1..] == ops[1..][..n];
      }
      StepConsistentIff(t, ops[0]);
      assert ops[..0] == [] && ops[1..][..0] == [];
      assert Run(t, ops[..0 + 1]) == next;
      if Consistent(next) {
        RunConsistentIff(next, ops[1..]);
        if AllSafe(t, ops) {
          forall n | 0 <= n <= |ops| ensures Consistent(Run(t, ops[..n])) {
            if n > 0 {
              assert Run(t, ops[..(n - 1) + 1]) == Run(next, ops[1..][..n - 1]);
            }
          }
        }
      }
    }
  }

  // ---- What goes wrong otherwise ----

  /** A channel that is disabled, deleted with the disabled ones and enabled late has enabled abilities again. */
  lemma EnabledAfterDeletion(t: Table, k: Key)
    requires Consistent(t) && k.id in t.channels && k in t.abilities
    ensures var u := Run(t, [SetStatus(k.id, AUTO_DISABLED), DeleteDisabled, SetStatus(k.id, ENABLED)]);
            k.id !in u.channels && k in u.abilities && u.abilities[k].enabled && !Consistent(u)
  {
    hide Entries;
    var ops := [SetStatus(k.id, AUTO_DISABLED), DeleteDisabled, SetStatus(k.id, ENABLED)];
    var gone := DisabledDeleted(StatusSet(t, k.id, AUTO_DISABLED));
    var u := StatusSet(gone, k.id, ENABLED);
    assert ops[1..] == [DeleteDisabled, SetStatus(k.id, ENABLED)] && ops[1..][1..] == [SetStatus(k.id, ENABLED)];
    assert Run(t, ops) == Run(gone, [SetStatus(k.id, ENABLED)]) == Run(u, [SetStatus(k.id, ENABLED)][1..]) == u;
    assert !Agrees(u, k);
  }

  /** The row of a channel that lists a group twice is stored all the same, without abilities. */
  lemma GroupTwiceStored()
    ensures var (t, ok) := BatchInserted(EMPTY, [Channel(ENABLED, "m", "a,a", None)]);
            !ok && t.channels == map[1 := Row(ENABLED, "m", "a,a", 0)] && t.abilities == map[]
  {
    var channels := [Channel(ENABLED, "m", "a,a", None)];
    var row := Row(ENABLED, "m", "a,a", 0);
    assert RowsCreated(EMPTY, channels) == Table(map[1 := row], map[], 2) by {
      assert RowsCreated(Table(map[1 := row], map[], 2), channels[1..]) == Table(map[1 := row], map[], 2);
    }
    SplitFirst("a", "a", ',');
    assert "a" + "," + "a" == "a,a";
    assert Entries("a,a")[0] == Entries("a,a")[1];
  }

  // ---- What the operations leave, column by column ----

  /** What is given is stored, what is left out stays, and the abilities are those the row then lists. */
  lemma UpdateArrives(t: Table, id: int, channel: Channel)
    requires id in t.channels && id != 0
    ensures var ((u, ok), was) := (Updated(t, id, channel), t.channels[id]);
            var status := if channel.status != 0 then channel.status else was.status;
            var models := if channel.models != "" then channel.models else was.models;
            var group := if channel.group != "" then channel.group else was.group;
            var priority := if channel.priority.Some? then channel.priority.value else was.priority;
            && u.channels == t.channels[id := Row(status, models, group, priority)]
            && (ok <==> Distinct(Entries(group)))
            && (forall k: Key :: k.id == id ==>
                  && (k in u.abilities <==> ok && k.group in Entries(group) && k.model in Entries(models))
                  && (k in u.abilities ==> u.abilities[k] == Ability(status == 1, priority)))
  {
    hide Entries, Distinct;
    var row := Patched(t.channels[id], channel);
    forall k: Key | k.id == id ensures k in Keys(row, id) <==> Lists(row, k.group, k.model) {
      KeysAre(row, id, k);
    }
  }

  /** An update of a channel that does not exist stores no row, but gives it the abilities that the update lists. */
  lemma MissingUpdateAdds(t: Table, id: int, channel: Channel)
    requires id !in t.channels && id != 0
    ensures var (u, ok) := Updated(t, id, channel);
            && u.channels == t.channels
            && (ok <==> Distinct(Entries(channel.group)))
            && (forall k: Key :: k.id == id ==>
                  && (k in u.abilities <==> ok && k.group in Entries(channel.group) && k.model in Entries(channel.models))
                  && (k in u.abilities ==>
                        u.abilities[k] == Ability(channel.status == 1, if channel.priority.Some? then channel.priority.value else 0)))
  {
    hide Entries, Distinct;
    var row := AsGiven(channel);
    forall k: Key | k.id == id ensures k in Keys(row, id) <==> Lists(row, k.group, k.model) {
      KeysAre(row, id, k);
    }
  }

  /** A deletion takes the row and the abilities of its channel, and nothing else. */
  lemma DeletionErases(t: Table, id: int)
    ensures var u := Deleted(t, id);
            if id == 0 then u == t
            else
              && id !in u.channels && u.nextId == t.nextId
              && (forall k: Key :: k in u.abilities <==> k in t.abilities && k.id != id)
              && (forall i :: i in u.channels <==> i in t.channels && i != id)
              && (forall i :: i in u.channels ==> u.channels[i] == t.channels[i])
              && (forall k :: k in u.abilities ==> u.abilities[k] == t.abilities[k])
  {
  }

  /** A new channel is enabled and in the group default unless something else is given. */
  lemma InsertedRow(channel: Channel)
    ensures AsInserted(channel) ==
            Row(if channel.status == 0 then 1 else channel.status, channel.models,
                if channel.group == "" then "default" else channel.group,
                if channel.priority.Some? then channel.priority.value else 0)
  {
  }

  lemma {:induction false} AddedKeepsRows(t: Table, id: int, channels: seq<Channel>)
    ensures var u := AllAbilitiesAdded(t, id, channels).0; u.channels == t.channels && u.nextId == t.nextId
    decreases |channels|
  {
    if channels != [] {
      AddedKeepsRows(AbilitiesAdded(t, id, AsInserted(channels[0])).0, id + 1, channels[1..]);
    }
  }

  /** An insertion stores every row, with the next ids in turn, even when abilities are refused. */
  lemma InsertionStores(t: Table, channels: seq<Channel>)
    requires Consistent(t)
    ensures var u := BatchInserted(t, channels).0;
            && u.nextId == t.nextId + |channels|
            && (forall id :: id in u.channels <==> id in t.channels || t.nextId <= id < t.nextId + |channels|)
            && (forall id :: id in t.channels ==> u.channels[id] == t.channels[id])
            && (forall id :: t.nextId <= id < t.nextId + |channels| ==>
                  var channel := channels[id - t.nextId];
                  u.channels[id] == Row(if channel.status == 0 then 1 else channel.status, channel.models,
                                        if channel.group == "" then "default" else channel.group,
                                        if channel.priority.Some? then channel.priority.value else 0))
    ensures BatchInserted(t, channels).1 ==>
              forall k: Key :: t.nextId <= k.id < t.nextId + |channels| ==>
                var (u, row) := (BatchInserted(t, channels).0, BatchInserted(t, channels).0.channels[k.id]);
                && (k in u.abilities <==> k.group in Entries(row.group) && k.model in Entries(row.models))
                && (k in u.abilities ==> u.abilities[k] == Ability(row.status == 1, row.priority))
  {
    hide RowsCreated, AllAbilitiesAdded, Entries, NoGroupTwice;
    RowsCreatedAre(t, channels);
    AddedKeepsRows(RowsCreated(t, channels), t.nextId, channels);
    var u := BatchInserted(t, channels).0;
    if BatchInserted(t, channels).1 {
      BatchInsertedConsistentIff(t, channels);
      forall k: Key | t.nextId <= k.id < t.nextId + |channels| ensures Agrees(u, k) {
      }
    }
  }

  lemma {:induction false} AddedUpTo(t: Table, id: int, channels: seq<Channel>, i: nat)
    requires ConsistentBelow(t, id) && id + |channels| == t.nextId && RowsFrom(t, id, channels)
    requires i <= |channels| && forall j :: 0 <= j < i ==> NoGroupTwice(AsInserted(channels[j]).group)
    requires i < |channels| ==> !NoGroupTwice(AsInserted(channels[i]).group)
    ensures ConsistentBelow(AllAbilitiesAdded(t, id, channels).0, id + i)
    decreases |channels|
  {
    hide NoGroupTwice, AsInserted, Keys, Unused;
    if channels != [] {
      assert id in t.channels;
      AddedBelow(t, id, AsInserted(channels[0]));
      if i > 0 {
        var next := AbilitiesAdded(t, id, AsInserted(channels[0])).0;
        forall j | 0 <= j < i - 1 ensures NoGroupTwice(AsInserted(channels[1..][j]).group) {
          assert channels[1..][j] == channels[j + 1];
        }
        assert RowsFrom(next, id + 1, channels[1..]);
        AddedUpTo(next, id + 1, channels[1..], i - 1);
      }
    }
  }

  /** New channels get their abilities one after the other, until the first that lists a group twice. */
  lemma InsertionStops(t: Table, channels: seq<Channel>, i: nat, k: Key)
    requires Consistent(t) && i <= |channels|
    requires forall j :: 0 <= j < i ==> Distinct(Entries(if channels[j].group == "" then "default" else channels[j].group))
    requires i < |channels| ==> !Distinct(Entries(if channels[i].group == "" then "default" else channels[i].group))
    requires k.id >= t.nextId
    ensures var (u, j) := (BatchInserted(t, channels).0, k.id - t.nextId);
            k in u.abilities <==>
              && j < i && k.model in Entries(channels[j].models)
              && k.group in Entries(if channels[j].group == "" then "default" else channels[j].group)
  {
    hide RowsCreated, AllAbilitiesAdded, Entries, Distinct;
    RowsCreatedAre(t, channels);
    forall c: Key | c.id < t.nextId ensures Agrees(RowsCreated(t, channels), c) {
      assert Agrees(t, c);
    }
    AddedUpTo(RowsCreated(t, channels), t.nextId, channels, i);
    AddedKeepsRows(RowsCreated(t, channels), t.nextId, channels);
    var u := BatchInserted(t, channels).0;
    if k.id < t.nextId + i {
      assert Agrees(u, k);
    }
  }

  /** A bulk deletion keeps all rows but those with status 2 or 3, and every ability. */
  lemma BulkDeletionKeeps(t: Table)
    ensures var u := DisabledDeleted(t);
            && (forall id :: id in u.channels <==> id in t.channels && t.channels[id].status != 2 && t.channels[id].status != 3)
            && (forall id :: id in u.channels ==> u.channels[id] == t.channels[id])
            && u.abilities == t.abilities && u.nextId == t.nextId
  {
  }

  /** A change of status changes one row and the flags of its abilities. */
  lemma StatusArrives(t: Table, id: int, status: int)
    ensures var u := StatusSet(t, id, status);
            && u.channels.Keys == t.channels.Keys && u.abilities.Keys == t.abilities.Keys && u.nextId == t.nextId
            && (forall i :: i in t.channels ==>
                  u.channels[i] == if i == id then Row(status, t.channels[i].models, t.channels[i].group, t.channels[i].priority)
                                   else t.channels[i])
            && (forall k :: k in t.abilities ==>
                  u.abilities[k] == if k.id == id then Ability(status == 1, t.abilities[k].priority) else t.abilities[k])
  {
  }

  lemma EmptyConsistent()
    ensures Consistent(Table(map[], map[], 1))
  {
  }
}
