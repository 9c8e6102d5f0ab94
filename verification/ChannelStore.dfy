/** The operations on channels, step by step. */
module ChannelStore {
  import opened Abilities
  import opened Strings
  import Collections

  method DeDuplication(slice: seq<string>) returns (result: seq<string>)
    ensures Distinct(result)
    ensures forall v :: v in result <==> v in slice
  {
    var m: set<string> := {};
    for i := 0 to |slice|
      invariant forall v :: v in m <==> v in slice[..i]
    {
      m := m + {slice[i]};
    }
    assert slice[..|slice|] == slice;
    result := [];
    while m != {}
      invariant Distinct(result)
      invariant forall v :: v in slice <==> v in result || v in m
      invariant forall v :: v in result ==> v !in m
      decreases |m|
    {
      Collections.SomeString(m);
      var v :| v in m;
      result := result + [v];
      m := m - {v};
    }
  }

  lemma {:induction false} RowsCreatedKeepsAbilities(t: Table, channels: seq<Channel>)
    ensures RowsCreated(t, channels).abilities == t.abilities
    decreases |channels|
  {
    hide AsInserted;
    if channels != [] {
      RowsCreatedKeepsAbilities(
        t.(channels := t.channels[t.nextId := AsInserted(channels[0])], nextId := t.nextId + 1), channels[1..]);
    }
  }

  class Store {
    var channels: map<int, Row>
    var abilities: map<Key, Ability>
    var nextId: int

    ghost function State(): Table
      reads this
    {
      Table(channels, abilities, nextId)
    }

    constructor ()
      ensures State() == EMPTY
    {
      channels, abilities, nextId := map[], map[], 1;
    }

    method AddAbilities(id: int, row: Row) returns (ok: bool)
      modifies this`abilities
      ensures (State(), ok) == AbilitiesAdded(old(State()), id, row)
    {
      var models := DeDuplication(Entries(row.models));
      assert Entries(row.models)[0] in models;
      var groups := Entries(row.group);
      var keys: seq<Key> := [];
      for i := 0 to |models|
        invariant keys == KeyList(groups, models[..i], id)
      {
        for j := 0 to |groups|
          invariant keys == KeyList(groups, models[..i], id) + KeysFor(groups[..j], models[i], id)
        {
          keys := keys + [Key(groups[j], models[i], id)];
          assert KeysFor(groups[..j + 1], models[i], id) == KeysFor(groups[..j], models[i], id) + [Key(groups[j], models[i], id)];
        }
        assert groups[..|groups|] == groups && models[..i + 1][..i] == models[..i];
      }
      assert models[..|models|] == models;
      CreatedIsAdded(State(), id, row, models);
      var created := Created(abilities, keys, AbilityOf(row));
      ok := created.Some?;
      if ok {
        abilities := created.value;
      }
    }

    method DeleteAbilities(id: int)
      modifies this`abilities
      ensures abilities == Without(old(abilities), id)
    {
      abilities := map k | k in abilities && k.id != id :: abilities[k];
    }

    method UpdateAbilities(id: int, row: Row) returns (ok: bool)
      modifies this`abilities
      ensures (State(), ok) == AbilitiesAdded(old(State()).(abilities := Without(old(abilities), id)), id, row)
    {
      DeleteAbilities(id);
      ok := AddAbilities(id, row);
    }

    method UpdateAbilityStatus(channelId: int, status: bool)
      modifies this`abilities
      ensures abilities.Keys == old(abilities).Keys
      ensures forall k :: k in abilities ==>
                abilities[k] == if k.id == channelId then old(abilities)[k].(enabled := status) else old(abilities)[k]
    {
      abilities := map k | k in abilities ::
        if k.id == channelId then abilities[k].(enabled := status) else abilities[k];
    }

    method BatchInsertChannels(newChannels: seq<Channel>) returns (ok: bool)
      modifies this
      ensures (State(), ok) == BatchInserted(old(State()), newChannels)
    {
      hide AllAbilitiesAdded, RowsCreated;
      if newChannels == [] {
        return false;
      }
      var first := nextId;
      var created := RowsCreated(Table(channels, abilities, nextId), newChannels);
      RowsCreatedKeepsAbilities(State(), newChannels);
      channels, nextId := created.channels, created.nextId;
      ok := AddAllAbilities(first, newChannels);
    }

    /** Stops at the first channel whose abilities are refused. */
    method AddAllAbilities(first: int, newChannels: seq<Channel>) returns (ok: bool)
      modifies this`abilities
      ensures (State(), ok) == AllAbilitiesAdded(old(State()), first, newChannels)
    {
      hide AbilitiesAdded, AsInserted;
      for i := 0 to |newChannels|
        invariant AllAbilitiesAdded(State(), first + i, newChannels[i..]) == AllAbilitiesAdded(old(State()), first, newChannels)
      {
        ok := AddAbilities(first + i, AsInserted(newChannels[i]));
        assert newChannels[i..][1..] == newChannels[i + 1..];
        if !ok {
          return;
        }
      }
      ok := true;
    }

    method Insert(channel: Channel) returns (ok: bool)
      modifies this
      ensures (State(), ok) == BatchInserted(old(State()), [channel])
    {
      var id := nextId;
      channels := channels[id := AsInserted(channel)];
      nextId := nextId + 1;
      assert State() == RowsCreated(old(State()), [channel]) by {
        assert RowsCreated(State(), [channel][1..]) == State();
      }
      ok := AddAbilities(id, AsInserted(channel));
      assert AllAbilitiesAdded(State(), id + 1, [channel][1..]) == (State(), true);
    }

    method Update(id: int, channel: Channel) returns (ok: bool)
      modifies this
      ensures (State(), ok) == Updated(old(State()), id, channel)
    {
      if id == 0 {
        return false;
      }
      if id in channels {
        channels := channels[id := Patched(channels[id], channel)];
      }
      var row := if id in channels then channels[id] else AsGiven(channel);
      ok := UpdateAbilities(id, row);
    }

    method Delete(id: int) returns (ok: bool)
      modifies this
      ensures State() == Deleted(old(State()), id) && (ok <==> id != 0)
    {
      if id == 0 {
        return false;
      }
      channels := channels - {id};
      DeleteAbilities(id);
      ok := true;
    }

    method UpdateChannelStatusById(id: int, status: int)
      modifies this
      ensures State() == StatusSet(old(State()), id, status)
    {
      UpdateAbilityStatus(id, status == ENABLED);
      assert abilities == StatusSet(old(State()), id, status).abilities;
      if id in channels {
        channels := channels[id := channels[id].(status := status)];
      }
    }

    method DeleteDisabledChannel() returns (rowsAffected: nat)
      modifies this`channels
      ensures State() == DisabledDeleted(old(State()))
      ensures rowsAffected == |old(channels)| - |channels|
    {
      var kept := map id | id in channels && !Disabled(channels[id]) :: channels[id];
      Collections.SubsetSize(kept.Keys, channels.Keys);
      rowsAffected := |channels| - |kept|;
      channels := kept;
    }
  }
}
