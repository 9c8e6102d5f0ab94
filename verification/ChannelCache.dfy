/**
  The index that answers which channels serve a model to a group, and how it compares with asking
  the table of abilities.
 */
module ChannelCache {
  import opened Abilities
  import opened Strings
  import opened Wrappers
  import Collections

  /** A channel as the index holds it. */
  datatype Cached = Cached(id: int, row: Row)

  // ---- Asking the database ----

  /** The enabled abilities for a model in a group. */
  function Matching(t: Table, group: string, model: string): set<Key> {
    set k | k in t.abilities && k.group == group && k.model == model && t.abilities[k].enabled
  }

  predicate IsTop(t: Table, keys: set<Key>, k: Key)
    requires forall j :: j in keys ==> j in t.abilities
    requires k in t.abilities
  {
    forall j :: j in keys ==> t.abilities[j].priority <= t.abilities[k].priority
  }

  /** The channels one of which the query returns. */
  function Query(t: Table, group: string, model: string, ignoreFirstPriority: bool): set<int> {
    var keys := Matching(t, group, model);
    if ignoreFirstPriority then set k | k in keys :: k.id
    else set k | k in keys && IsTop(t, keys, k) :: k.id
  }

  // ---- Building the index ----

  type Index = map<string, map<string, seq<Cached>>>

  /** What the reading of the enabled channels may give. */
  ghost predicate Found(t: Table, channels: seq<Cached>) {
    && (forall i, j :: 0 <= i < j < |channels| ==> channels[i].id != channels[j].id)
    && (forall c :: c in channels <==> c.id in t.channels && t.channels[c.id] == c.row && c.row.status == ENABLED)
  }

  function Listed(index: Index, group: string, model: string): seq<Cached> {
    if group in index && model in index[group] then index[group][model] else []
  }

  function Count(s: seq<string>, x: string): nat {
    if s == [] then 0 else Count(s[..|s| - 1], x) + if s[|s| - 1] == x then 1 else 0
  }

  /** How often a channel with these lists is put under `group` and `model`. */
  function Copies(groups: seq<string>, models: seq<string>, group: string, model: string): nat {
    if groups == [] then 0
    else Copies(groups[..|groups| - 1], models, group, model) + if groups[|groups| - 1] == group then Count(models, model) else 0
  }

  function Repeat(c: Cached, n: nat): seq<Cached> {
    seq(n, i => c)
  }

  /** The channels under `group` and `model`, as they come in. */
  function ListFor(channels: seq<Cached>, group: string, model: string): seq<Cached> {
    if channels == [] then []
    else
      var c := channels[|channels| - 1];
      ListFor(channels[..|channels| - 1], group, model)
      + Repeat(c, Copies(Entries(c.row.group), Entries(c.row.models), group, model))
  }

  ghost predicate Sorted(s: seq<Cached>) {
    forall i, j :: 0 <= i < j < |s| ==> s[i].row.priority >= s[j].row.priority
  }

  ghost predicate IsSortOf(r: seq<Cached>, s: seq<Cached>) {
    Sorted(r) && multiset(r) == multiset(s)
  }

  function Inserted(s: seq<Cached>, c: Cached): seq<Cached> {
    if s == [] then [c]
    else
      var last := s[|s| - 1];
      if last.row.priority >= c.row.priority then s + [c] else Inserted(s[..|s| - 1], c) + [last]
  }

  /** One of the orders the sorting may leave. */
  function ByPriority(s: seq<Cached>): seq<Cached> {
    if s == [] then [] else Inserted(ByPriority(s[..|s| - 1]), s[|s| - 1])
  }

  lemma SortedSnoc(s: seq<Cached>, c: Cached)
    requires Sorted(s) && forall d :: d in s ==> d.row.priority >= c.row.priority
    ensures Sorted(s + [c])
  {
    forall i, j | 0 <= i < j < |s + [c]| ensures (s + [c])[i].row.priority >= (s + [c])[j].row.priority {
      assert s[i] in s;
    }
  }

  lemma {:induction false} InsertedSorts(s: seq<Cached>, c: Cached)
    requires Sorted(s)
    ensures IsSortOf(Inserted(s, c), s + [c])
  {
    if s != [] {
      var (before, last) := (s[..|s| - 1], s[|s| - 1]);
      assert s == before + [last];
      if last.row.priority >= c.row.priority {
        forall d | d in s ensures d.row.priority >= c.row.priority {
        }
        SortedSnoc(s, c);
      } else {
        InsertedSorts(before, c);
        forall d | d in Inserted(before, c) ensures d.row.priority >= last.row.priority {
          assert d in multiset(before + [c]);
        }
        SortedSnoc(Inserted(before, c), last);
      }
    }
  }

  lemma {:induction false} ByPrioritySorts(s: seq<Cached>)
    ensures IsSortOf(ByPriority(s), s)
  {
    if s != [] {
      ByPrioritySorts(s[..|s| - 1]);
      InsertedSorts(ByPriority(s[..|s| - 1]), s[|s| - 1]);
      assert s == s[..|s| - 1] + [s[|s| - 1]];
    }
  }

  method SortModels(model2channels: map<string, seq<Cached>>) returns (sorted: map<string, seq<Cached>>)
    ensures sorted.Keys == model2channels.Keys
    ensures forall model :: model in sorted ==> IsSortOf(sorted[model], model2channels[model])
  {
    sorted := model2channels;
    var left := model2channels.Keys;
    while left != {}
      invariant left <= sorted.Keys == model2channels.Keys
      invariant forall model :: model in left ==> sorted[model] == model2channels[model]
      invariant forall model :: model in sorted && model !in left ==> IsSortOf(sorted[model], model2channels[model])
      decreases |left|
    {
      Collections.SomeString(left);
      var model :| model in left;
      ByPrioritySorts(sorted[model]);
      sorted := sorted[model := ByPriority(sorted[model])];
      left := left - {model};
    }
  }

  method SortGroups(index: Index) returns (sorted: Index)
    ensures forall group, model :: IsSortOf(Listed(sorted, group, model), Listed(index, group, model))
  {
    sorted := index;
    var left := index.Keys;
    while left != {}
      invariant left <= sorted.Keys == index.Keys
      invariant forall group :: group in left ==> sorted[group] == index[group]
      invariant forall group, model :: group !in left ==> IsSortOf(Listed(sorted, group, model), Listed(index, group, model))
      decreases |left|
    {
      Collections.SomeString(left);
      var group :| group in left;
      var model2channels := SortModels(sorted[group]);
      sorted := sorted[group := model2channels];
      left := left - {group};
    }
  }

  function Put(index: Index, group: string, model: string, channel: Cached): Index
    requires group in index
  {
    index[group := index[group][model := Listed(index, group, model) + [channel]]]
  }

  /** The lists of one group have one more copy of the channel for each model. */
  ghost predicate ModelsAdded(next: Index, index: Index, group: string, models: seq<string>, channel: Cached) {
    forall g, l :: Listed(next, g, l) == Listed(index, g, l) + Repeat(channel, if g == group then Count(models, l) else 0)
  }

  ghost predicate GroupsAdded(next: Index, index: Index, groups: seq<string>, models: seq<string>, channel: Cached) {
    forall g, l :: Listed(next, g, l) == Listed(index, g, l) + Repeat(channel, Copies(groups, models, g, l))
  }

  lemma CopiesAppended(s: seq<Cached>, channel: Cached, n: nat, m: nat)
    ensures s + Repeat(channel, n) + Repeat(channel, m) == s + Repeat(channel, n + m)
  {
  }

  lemma PutListed(index: Index, group: string, model: string, channel: Cached, g: string, l: string)
    requires group in index
    ensures Listed(Put(index, group, model, channel), g, l)
            == Listed(index, g, l) + Repeat(channel, if g == group && l == model then 1 else 0)
  {
    assert Repeat(channel, 1) == [channel] && Repeat(channel, 0) == [];
  }

  lemma CountSnoc(models: seq<string>, model: string, l: string)
    ensures Count(models + [model], l) == Count(models, l) + if l == model then 1 else 0
  {
    assert (models + [model])[..|models|] == models;
  }

  lemma OneModelMore(next: Index, index: Index, group: string, models: seq<string>, model: string, channel: Cached)
    requires ModelsAdded(next, index, group, models, channel) && group in next
    ensures ModelsAdded(Put(next, group, model, channel), index, group, models + [model], channel)
  {
    hide Put, Listed, Repeat, Count;
    forall g, l
      ensures Listed(Put(next, group, model, channel), g, l)
              == Listed(index, g, l) + Repeat(channel, if g == group then Count(models + [model], l) else 0)
    {
      PutListed(next, group, model, channel, g, l);
      CountSnoc(models, model, l);
      CopiesAppended(Listed(index, g, l), channel, if g == group then Count(models, l) else 0,
                     if g == group && l == model then 1 else 0);
    }
  }

  lemma OneGroupMore(next: Index, middle: Index, index: Index, groups: seq<string>, group: string, models: seq<string>, channel: Cached)
    requires GroupsAdded(middle, index, groups, models, channel) && ModelsAdded(next, middle, group, models, channel)
    ensures GroupsAdded(next, index, groups + [group], models, channel)
  {
    assert (groups + [group])[..|groups|] == groups;
    hide Listed, Repeat, Count;
    forall g, l ensures Listed(next, g, l) == Listed(index, g, l) + Repeat(channel, Copies(groups + [group], models, g, l)) {
      var n, m := Copies(groups, models, g, l), if g == group then Count(models, l) else 0;
      assert Listed(middle, g, l) == Listed(index, g, l) + Repeat(channel, n);
      assert Listed(next, g, l) == Listed(middle, g, l) + Repeat(channel, m);
      CopiesAppended(Listed(index, g, l), channel, n, m);
    }
  }

  /** Appending to a new empty list is appending to none. */
  lemma PutAgain(index: Index, next: Index, group: string, model: string, channel: Cached)
    requires group in index
    requires next == if model in index[group] then index else index[group := index[group][model := []]]
    ensures next[group := next[group][model := next[group][model] + [channel]]] == Put(index, group, model, channel)
    ensures Put(index, group, model, channel).Keys == index.Keys
  {
    if model !in index[group] {
      assert index[group][model := []][model := [channel]] == index[group][model := [channel]];
      assert [] + [channel] == [channel];
      var models := index[group][model := [channel]];
      assert next[group := models] == index[group := models];
    }
  }

  /** Puts a channel under all its models in one group. */
  method AddModels(index: Index, group: string, models: seq<string>, channel: Cached) returns (next: Index)
    requires group in index
    ensures next.Keys == index.Keys
    ensures ModelsAdded(next, index, group, models, channel)
  {
    next := index;
    assert ModelsAdded(next, index, group, models[..0], channel);
    hide ModelsAdded, Listed, Put;
    for j := 0 to |models|
      invariant next.Keys == index.Keys
      invariant ModelsAdded(next, index, group, models[..j], channel)
    {
      ghost var before := next;
      var model := models[j];
      OneModelMore(before, index, group, models[..j], model, channel);
      assert models[..j] + [model] == models[..j + 1];
      if model !in next[group] {
        next := next[group := next[group][model := []]];
      }
      PutAgain(before, next, group, model, channel);
      next := next[group := next[group][model := next[group][model] + [channel]]];
    }
    assert models[..|models|] == models;
  }

  /** Puts a channel under all its groups and models; a group that is not there is a panic. */
  method Add(index: Index, channel: Cached) returns (added: bool, next: Index)
    ensures added <==> forall group :: group in Entries(channel.row.group) ==> group in index
    ensures added ==> next.Keys == index.Keys
    ensures added ==> GroupsAdded(next, index, Entries(channel.row.group), Entries(channel.row.models), channel)
  {
    var groups, models := Entries(channel.row.group), Entries(channel.row.models);
    next := index;
    assert GroupsAdded(next, index, groups[..0], models, channel);
    hide GroupsAdded, ModelsAdded, Entries;
    for i := 0 to |groups|
      invariant next.Keys == index.Keys && forall j :: 0 <= j < i ==> groups[j] in index
      invariant GroupsAdded(next, index, groups[..i], models, channel)
    {
      if groups[i] !in next {
        return false, next;
      }
      ghost var before := next;
      next := AddModels(next, groups[i], models, channel);
      OneGroupMore(next, before, index, groups[..i], groups[i], models, channel);
      assert groups[..i] + [groups[i]] == groups[..i + 1];
    }
    assert groups[..|groups|] == groups;
    added := true;
  }

  lemma OneChannelMore(next: Index, index: Index, channels: seq<Cached>, c: Cached)
    requires forall g, l :: Listed(index, g, l) == ListFor(channels, g, l)
    requires GroupsAdded(next, index, Entries(c.row.group), Entries(c.row.models), c)
    ensures forall g, l :: Listed(next, g, l) == ListFor(channels + [c], g, l)
  {
    forall g, l ensures Listed(next, g, l) == ListFor(channels + [c], g, l) {
      assert (channels + [c])[..|channels|] == channels;
      assert Listed(index, g, l) == ListFor(channels, g, l);
    }
  }

  class Cache {
    var group2model2channels: Index

    /**
      Builds the index from the enabled channels and the keys of all abilities.  Writing under a
      group that no ability has is a panic.
     */
    method InitChannelCache(channels: seq<Cached>, abilities: seq<Key>) returns (panicked: bool)
      modifies this
      ensures panicked <==> exists c, group :: c in channels && group in Entries(c.row.group) && group !in GroupsOf(abilities)
      ensures panicked ==> group2model2channels == old(group2model2channels)
      ensures !panicked ==> forall group, model ::
                IsSortOf(Listed(group2model2channels, group, model), ListFor(channels, group, model))
    {
      var groups: set<string> := {};
      for i := 0 to |abilities|
        invariant groups == GroupsOf(abilities[..i])
      {
        groups := groups + {abilities[i].group};
        assert abilities[..i + 1] == abilities[..i] + [abilities[i]];
      }
      assert abilities[..|abilities|] == abilities;
      var index: Index := map group | group in groups :: map[];
      panicked := false;
      hide GroupsAdded, ListFor, IsSortOf, Listed, Entries, GroupsOf;
      for i := 0 to |channels|
        invariant !panicked && index.Keys == groups && group2model2channels == old(group2model2channels)
        invariant forall j, group :: 0 <= j < i && group in Entries(channels[j].row.group) ==> group in groups
        invariant forall group, model :: Listed(index, group, model) == ListFor(channels[..i], group, model)
      {
        ghost var before := index;
        var added, next := Add(index, channels[i]);
        if !added {
          var group :| group in Entries(channels[i].row.group) && group !in index;
          assert channels[i] in channels && group !in GroupsOf(abilities);
          return true;
        }
        index := next;
        OneChannelMore(index, before, channels[..i], channels[i]);
        assert channels[..i] + [channels[i]] == channels[..i + 1];
      }
      assert channels[..|channels|] == channels;
      var sorted := SortGroups(index);
      forall group, model ensures IsSortOf(Listed(sorted, group, model), ListFor(channels, group, model)) {
        assert Listed(index, group, model) == ListFor(channels, group, model);
      }
      group2model2channels := sorted;
    }
  }

  function GroupsOf(abilities: seq<Key>): set<string> {
    set k | k in abilities :: k.group
  }

  // ---- The index agrees with the table ----

  lemma {:induction false} CountPositive(s: seq<string>, x: string)
    ensures Count(s, x) > 0 <==> x in s
  {
    if s != [] {
      CountPositive(s[..|s| - 1], x);
      assert s == s[..|s| - 1] + [s[|s| - 1]];
    }
  }

  lemma {:induction false} CopiesPositive(groups: seq<string>, models: seq<string>, group: string, model: string)
    ensures Copies(groups, models, group, model) > 0 <==> group in groups && model in models
  {
    if groups != [] {
      CopiesPositive(groups[..|groups| - 1], models, group, model);
      CountPositive(models, model);
      assert groups == groups[..|groups| - 1] + [groups[|groups| - 1]];
    }
  }

  lemma {:induction false} ListForMembers(channels: seq<Cached>, group: string, model: string)
    ensures forall c :: c in ListFor(channels, group, model) <==> c in channels && Lists(c.row, group, model)
  {
    if channels != [] {
      var (before, c) := (channels[..|channels| - 1], channels[|channels| - 1]);
      ListForMembers(before, group, model);
      CopiesPositive(Entries(c.row.group), Entries(c.row.models), group, model);
      var n := Copies(Entries(c.row.group), Entries(c.row.models), group, model);
      assert forall d :: d in Repeat(c, n) <==> d == c && n > 0 by {
        if n > 0 {
          assert Repeat(c, n)[0] == c;
        }
      }
      assert channels == before + [c];
      hide Entries, Copies, Repeat;
    }
  }

  /** A list of the index of `t`. */
  ghost predicate ListOf(t: Table, list: seq<Cached>, group: string, model: string) {
    exists channels :: Found(t, channels) && IsSortOf(list, ListFor(channels, group, model))
  }

  lemma ListOfMembers(t: Table, list: seq<Cached>, group: string, model: string)
    requires ListOf(t, list, group, model)
    ensures Sorted(list)
    ensures forall c :: c in list <==>
              c.id in t.channels && t.channels[c.id] == c.row && c.row.status == ENABLED && Lists(c.row, group, model)
  {
    var channels :| Found(t, channels) && IsSortOf(list, ListFor(channels, group, model));
    ListForMembers(channels, group, model);
    forall c ensures c in list <==> c in ListFor(channels, group, model) {
      assert c in multiset(list) <==> c in multiset(ListFor(channels, group, model));
    }
  }

  function Ids(list: seq<Cached>): set<int> {
    set c | c in list :: c.id
  }

  /** The cached list for a group and a model has the channels that a query finds. */
  lemma IndexAgrees(t: Table, list: seq<Cached>, group: string, model: string)
    requires AllAgree(t) && ListOf(t, list, group, model)
    ensures Sorted(list)
    ensures Ids(list) == Query(t, group, model, true)
    ensures forall id :: id in Ids(list) <==>
              && id in t.channels && t.channels[id].status == 1
              && group in Entries(t.channels[id].group) && model in Entries(t.channels[id].models)
  {
    ListOfMembers(t, list, group, model);
    hide Lists;
    forall id: int
      ensures id in Ids(list) <==> id in t.channels && t.channels[id].status == ENABLED && Lists(t.channels[id], group, model)
      ensures id in Ids(list) <==> id in Query(t, group, model, true)
    {
      var k := Key(group, model, id);
      assert Agrees(t, k);
      if id in t.channels {
        assert Cached(id, t.channels[id]) in list ==> id in Ids(list);
      }
      assert k in Matching(t, group, model) ==> id in Query(t, group, model, true);
    }
  }

  /** The index of tables in step is always built. */
  lemma NoPanic(t: Table, channels: seq<Cached>, abilities: seq<Key>)
    requires AllAgree(t) && Found(t, channels) && forall k :: k in abilities <==> k in t.abilities
    ensures forall c, group :: c in channels && group in Entries(c.row.group) ==> group in GroupsOf(abilities)
  {
    forall c, group | c in channels && group in Entries(c.row.group) ensures group in GroupsOf(abilities) {
      var k := Key(group, Entries(c.row.models)[0], c.id);
      assert Agrees(t, k);
      assert k in abilities;
    }
  }

  // ---- Picking a channel ----

  /** How many channels the first pick chooses from. */
  function FirstRun(list: seq<Cached>): (end: nat)
    requires list != []
    ensures 0 < end <= |list|
  {
    if list[0].row.priority > 0 then RunLength(list) else |list|
  }

  /** The length of the run of equal priorities at the start. */
  function RunLength(list: seq<Cached>): (n: nat)
    requires list != []
    ensures 0 < n <= |list|
    ensures forall i :: 0 <= i < n ==> list[i].row.priority == list[0].row.priority
    ensures n < |list| ==> list[n].row.priority != list[0].row.priority
  {
    if |list| == 1 then 1
    else
      var n := RunLength(list[..|list| - 1]);
      if n == |list| - 1 && list[n].row.priority == list[0].row.priority then n + 1 else n
  }

  /** The positions a pick may have. */
  function Range(list: seq<Cached>, ignoreFirstPriority: bool): (range: (nat, nat))
    requires list != []
    ensures range.0 < range.1 <= |list|
  {
    var end := FirstRun(list);
    if ignoreFirstPriority && end < |list| then (end, |list|) else (0, end)
  }

  function Picks(list: seq<Cached>, ignoreFirstPriority: bool): set<int> {
    if list == [] then {}
    else var (lo, hi) := Range(list, ignoreFirstPriority); Ids(list[lo..hi])
  }

  /** `first` and `second` are what the random number generator gives. */
  method CacheGetRandomSatisfiedChannel(cache: Cache, group: string, model: string, ignoreFirstPriority: bool,
                                        first: nat, second: nat) returns (channel: Option<Cached>)
    ensures var list := Listed(cache.group2model2channels, group, model);
            && (channel.None? <==> list == [])
            && (channel.Some? ==> channel.value.id in Picks(list, ignoreFirstPriority))
            && (channel.Some? ==>
                  var (lo, hi) := Range(list, ignoreFirstPriority);
                  channel.value == list[lo + (if lo > 0 then second else first) % (hi - lo)])
  {
    var channels := Listed(cache.group2model2channels, group, model);
    if |channels| == 0 {
      return None;
    }
    var endIdx := |channels|;
    var firstChannel := channels[0];
    if firstChannel.row.priority > 0 {
      for i := 0 to |channels|
        invariant endIdx == |channels|
        invariant forall j :: 0 <= j < i ==> channels[j].row.priority == firstChannel.row.priority
      {
        if channels[i].row.priority != firstChannel.row.priority {
          endIdx := i;
          break;
        }
      }
    }
    assert endIdx == FirstRun(channels);
    var idx := first % endIdx;
    if ignoreFirstPriority {
      if endIdx < |channels| {
        idx := endIdx + second % (|channels| - endIdx);
      }
    }
    ghost var (lo, hi) := Range(channels, ignoreFirstPriority);
    assert channels[idx] == channels[lo..hi][idx - lo];
    return Some(channels[idx]);
  }

  // ---- The picks against the queries ----

  predicate AllEqual(list: seq<Cached>) {
    forall c :: c in list ==> c.row.priority == list[0].row.priority
  }

  lemma QueryIsTop(t: Table, list: seq<Cached>, group: string, model: string)
    requires AllAgree(t) && ListOf(t, list, group, model) && list != []
    ensures Query(t, group, model, false) == set c | c in list && c.row.priority == list[0].row.priority :: c.id
  {
    hide Lists, Entries;
    ListOfMembers(t, list, group, model);
    var keys := Matching(t, group, model);
    forall k: Key ensures k in keys <==> k.group == group && k.model == model && k.id in t.channels && Cached(k.id, t.channels[k.id]) in list {
      assert Agrees(t, k);
    }
    forall k | k in keys ensures t.abilities[k].priority == t.channels[k.id].priority {
      assert Agrees(t, k);
    }
    var top := Key(group, model, list[0].id);
    assert list[0] in list && top in keys;
    forall k | k in keys ensures IsTop(t, keys, k) <==> t.channels[k.id].priority == list[0].row.priority {
      TopOfSorted(list);
      if t.channels[k.id].priority == list[0].row.priority {
        forall j | j in keys ensures t.abilities[j].priority <= t.abilities[k].priority {
          assert Cached(j.id, t.channels[j.id]) in list;
        }
      } else {
        assert Cached(k.id, t.channels[k.id]) in list;
        assert t.abilities[top].priority > t.abilities[k].priority;
      }
    }
    var tops := set c | c in list && c.row.priority == list[0].row.priority :: c.id;
    forall id ensures id in Query(t, group, model, false) <==> id in tops {
      var k := Key(group, model, id);
      if id in tops {
        assert k in keys;
      }
      if id in Query(t, group, model, false) {
        assert k in keys && Cached(id, t.channels[id]) in list;
      }
    }
  }

  lemma TopOfSorted(list: seq<Cached>)
    requires Sorted(list) && list != []
    ensures forall c :: c in list ==> c.row.priority <= list[0].row.priority
    ensures forall i :: 0 <= i < |list| ==> (list[i].row.priority == list[0].row.priority <==> i < RunLength(list))
    ensures AllEqual(list) <==> RunLength(list) == |list|
  {
    var n := RunLength(list);
    forall c | c in list ensures c.row.priority <= list[0].row.priority {
      var i :| 0 <= i < |list| && list[i] == c;
      assert i > 0 ==> list[0].row.priority >= list[i].row.priority;
    }
    if n < |list| {
      assert list[n] in list;
      forall i | n <= i < |list| ensures list[i].row.priority != list[0].row.priority {
        assert list[n].row.priority >= list[i].row.priority;
      }
    }
  }

  /** The parts of a list below and from its run of top priorities. */
  lemma RunSplits(list: seq<Cached>)
    requires Sorted(list) && list != []
    ensures var n := RunLength(list);
            && (forall c :: c in list[..n] <==> c in list && c.row.priority == list[0].row.priority)
            && (forall c :: c in list[n..] <==> c in list && c.row.priority != list[0].row.priority)
  {
    TopOfSorted(list);
    var n := RunLength(list);
    SplitAt(list, n, list[0].row.priority);
  }

  lemma SplitAt(list: seq<Cached>, n: nat, top: int)
    requires n <= |list| && forall i :: 0 <= i < |list| ==> (list[i].row.priority == top <==> i < n)
    ensures forall c :: c in list[..n] <==> c in list && c.row.priority == top
    ensures forall c :: c in list[n..] <==> c in list && c.row.priority != top
  {
    forall c | c in list ensures if c.row.priority == top then c in list[..n] else c in list[n..] {
      var i :| 0 <= i < |list| && list[i] == c;
      assert if i < n then list[..n][i] == c else list[n..][i - n] == c;
    }
    assert forall c :: c in list[..n] ==> c in list && c.row.priority == top;
    forall c | c in list[n..] ensures c in list && c.row.priority != top {
      var i :| 0 <= i < |list| - n && list[n..][i] == c;
      assert list[n + i] == c;
    }
  }

  /** Channels are told apart by their ids. */
  lemma SameRow(t: Table, list: seq<Cached>, group: string, model: string)
    requires ListOf(t, list, group, model)
    ensures forall c, d :: c in list && d in list && c.id == d.id ==> c == d
  {
    ListOfMembers(t, list, group, model);
  }

  /**
    With a top priority above 0 the first pick chooses as the query does, and a retry from the
    channels below the top, if there are any; otherwise both choose from all channels.
   */
  lemma PicksAreQueries(t: Table, list: seq<Cached>, group: string, model: string)
    requires AllAgree(t) && ListOf(t, list, group, model)
    ensures var (all, top) := (Query(t, group, model, true), Query(t, group, model, false));
            && top <= all
            && Picks(list, false) == (if list != [] && list[0].row.priority > 0 then top else all)
            && Picks(list, true) == (if list != [] && list[0].row.priority > 0 && top != all then all - top else all)
            && (top == all <==> list == [] || AllEqual(list))
  {
    hide Query, Sorted, AllAgree, ListOf, AllEqual, RunLength;
    IndexAgrees(t, list, group, model);
    QueriesNest(t, group, model);
    if list != [] {
      QueryIsTop(t, list, group, model);
      TopOfSorted(list);
      RunSplits(list);
      SameRow(t, list, group, model);
      var n := RunLength(list);
      var top := Query(t, group, model, false);
      assert list[..|list|] == list && list[0..n] == list[..n] && list[n..|list|] == list[n..];
      assert Ids(list[..n]) == top;
      assert Ids(list[n..]) == Ids(list) - top;
      assert n < |list| ==> list[n] in list[n..] && list[n].id in Ids(list[n..]);
    } else {
      AllEqualEmpty(list);
    }
  }

  lemma AllEqualEmpty(list: seq<Cached>)
    requires list == []
    ensures AllEqual(list) && Ids(list) == {}
  {
  }

  lemma QueriesNest(t: Table, group: string, model: string)
    ensures Query(t, group, model, false) <= Query(t, group, model, true)
  {
  }

  /** The first pick chooses from just the channels of the query exactly when some priority counts, or none differ. */
  lemma FirstPickAgreesIff(t: Table, list: seq<Cached>, group: string, model: string)
    requires AllAgree(t) && ListOf(t, list, group, model)
    ensures Query(t, group, model, false) <= Picks(list, false)
    ensures Picks(list, false) == Query(t, group, model, false)
            <==> list == [] || list[0].row.priority > 0 || AllEqual(list)
    ensures Picks(list, true) <= Query(t, group, model, true)
  {
    hide Query, Picks, AllAgree, ListOf, AllEqual;
    PicksAreQueries(t, list, group, model);
  }
}
