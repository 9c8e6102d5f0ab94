/**
  The retry loop over the index: which priorities the attempts of a request can reach while the index
  stays as it is.
 */
module RelayRouting {
  import opened Wrappers
  import opened Abilities
  import opened ChannelCache
  import opened RelayRetry
  import opened Strings
  import Collections

  /** Picks as the index gives them: only the first retry may take the top priority. */
  ghost predicate Offered(list: seq<Cached>, picks: seq<Option<int>>) {
    forall k :: 0 <= k < |picks| ==> if list == [] then picks[k].None? else picks[k].Some? && picks[k].value in Picks(list, k != 0)
  }

  /** The index tells priorities apart for this group and model. */
  ghost predicate Layered(t: Table, list: seq<Cached>, group: string, model: string) {
    && AllAgree(t) && ListOf(t, list, group, model)
    && list != [] && list[0].row.priority > 0 && !AllEqual(list)
  }

  ghost function Top(t: Table, group: string, model: string): set<int> {
    Query(t, group, model, false)
  }

  ghost function Lower(t: Table, group: string, model: string): set<int> {
    Query(t, group, model, true) - Query(t, group, model, false)
  }

  lemma LayeredPicks(t: Table, list: seq<Cached>, group: string, model: string)
    requires Layered(t, list, group, model)
    ensures Picks(list, false) == Top(t, group, model) && Picks(list, true) == Lower(t, group, model)
    ensures Top(t, group, model) != {} && Lower(t, group, model) != {}
  {
    PicksAreQueries(t, list, group, model);
    hide Query;
    PicksExist(list, false);
    PicksExist(list, true);
  }

  lemma PicksExist(list: seq<Cached>, ignoreFirstPriority: bool)
    requires list != []
    ensures Picks(list, ignoreFirstPriority) != {}
  {
    var (lo, hi) := Range(list, ignoreFirstPriority);
    assert list[lo..hi][0] in list[lo..hi] && list[lo..hi][0].id in Ids(list[lo..hi]);
  }

  /** The j-th channel after the first comes from the j-th pick or a later one. */
  lemma {:induction false} DifferentFromPicks(last: int, picks: seq<Option<int>>, j: nat) returns (k: nat)
    requires j < |Different(last, picks)|
    ensures j <= k < |picks| && picks[k] == Some(Different(last, picks)[j])
    decreases |picks|
  {
    if picks[0].value == last {
      k := DifferentFromPicks(last, picks[1..], j);
      k := k + 1;
    } else if j == 0 {
      k := 0;
    } else {
      k := DifferentFromPicks(picks[0].value, picks[1..], j - 1);
      k := k + 1;
    }
  }

  lemma ChannelIsPick(first: int, picks: seq<Option<int>>, channels: seq<int>, j: nat) returns (k: nat)
    requires channels <= [first] + Different(first, picks) && 1 <= j < |channels|
    ensures j - 1 <= k < |picks| && picks[k] == Some(channels[j])
  {
    k := DifferentFromPicks(first, picks, j - 1);
    assert channels[j] == ([first] + Different(first, picks))[j];
  }

  /** The channels a run may be sent to, when the request itself was given a first pick. */
  ghost predicate Routed(list: seq<Cached>, first: int, picks: seq<Option<int>>, channels: seq<int>) {
    && first in Picks(list, false) && Offered(list, picks)
    && channels != [] && channels <= [first] + Different(first, picks)
  }

  /** The request and its first retry may go to top channels; every attempt from the third on goes below. */
  lemma AttemptsDescend(t: Table, list: seq<Cached>, group: string, model: string,
                        first: int, picks: seq<Option<int>>, channels: seq<int>)
    requires Layered(t, list, group, model) && Routed(list, first, picks, channels)
    ensures channels[0] in Top(t, group, model)
    ensures forall j :: 1 <= j < |channels| ==> channels[j] in Top(t, group, model) + Lower(t, group, model)
    ensures forall j :: 2 <= j < |channels| ==> channels[j] in Lower(t, group, model)
  {
    hide Picks, Top, Lower, Layered, Different;
    LayeredPicks(t, list, group, model);
    forall j | 1 <= j < |channels|
      ensures channels[j] in Top(t, group, model) + Lower(t, group, model)
      ensures j >= 2 ==> channels[j] in Lower(t, group, model)
    {
      var k := ChannelIsPick(first, picks, channels, j);
    }
  }

  /** A top channel that is alone is not tried again: the retry that finds it is skipped. */
  lemma LoneTopTriedOnce(t: Table, list: seq<Cached>, group: string, model: string,
                         first: int, picks: seq<Option<int>>, channels: seq<int>)
    requires Layered(t, list, group, model) && Routed(list, first, picks, channels) && Top(t, group, model) == {first}
    ensures forall j :: 1 <= j < |channels| ==> channels[j] in Lower(t, group, model)
  {
    LayeredPicks(t, list, group, model);
    hide Picks, Top, Lower, Layered;
    if picks != [] {
      assert picks[0] == Some(first);
      var rest := picks[1..];
      assert Different(first, picks) == Different(first, rest);
      hide Different;
      forall j | 1 <= j < |channels| ensures channels[j] in Lower(t, group, model) {
        var k := ChannelIsPick(first, rest, channels, j);
        assert picks[k + 1] == Some(channels[j]);
      }
    }
  }

  /** A run with that many retries can reach a channel below the top priority. */
  ghost predicate CanDescend(t: Table, list: seq<Cached>, group: string, model: string, retryTimes: nat) {
    exists first, picks ::
      |picks| == retryTimes && Descends(t, list, group, model, first, picks)
  }

  ghost predicate Descends(t: Table, list: seq<Cached>, group: string, model: string, first: int, picks: seq<Option<int>>) {
    && first in Picks(list, false) && Offered(list, picks)
    && exists j :: 0 <= j < |Different(first, picks)| && Different(first, picks)[j] in Lower(t, group, model)
  }

  /** Lower priorities are within reach exactly when there are at least two retries. */
  lemma CanDescendIff(t: Table, list: seq<Cached>, group: string, model: string, retryTimes: nat)
    requires Layered(t, list, group, model)
    ensures CanDescend(t, list, group, model, retryTimes) <==> retryTimes >= 2
  {
    hide Layered, Picks, Top, Lower;
    LayeredPicks(t, list, group, model);
    if retryTimes >= 2 {
      DescentExists(t, list, group, model, retryTimes);
    } else {
      forall first, picks | |picks| == retryTimes ensures !Descends(t, list, group, model, first, picks) {
        NoDescent(t, list, group, model, first, picks);
      }
    }
  }

  lemma NoDescent(t: Table, list: seq<Cached>, group: string, model: string, first: int, picks: seq<Option<int>>)
    requires Layered(t, list, group, model) && |picks| <= 1
    ensures !Descends(t, list, group, model, first, picks)
  {
    LayeredPicks(t, list, group, model);
    TopIsNotLower(t, group, model);
    hide Layered, Picks, Top, Lower;
    if first in Picks(list, false) && Offered(list, picks) {
      forall j | 0 <= j < |Different(first, picks)| ensures Different(first, picks)[j] !in Lower(t, group, model) {
        var k := DifferentFromPicks(first, picks, j);
        assert picks[k].value in Picks(list, k != 0);
      }
    }
  }

  lemma TopIsNotLower(t: Table, group: string, model: string)
    ensures forall id :: id in Top(t, group, model) ==> id !in Lower(t, group, model)
  {
    hide Query;
  }

  /** The first retry finds the failed channel again and is skipped; the others go below. */
  function DescendingPicks(first: int, below: int, retryTimes: nat): seq<Option<int>> {
    seq(retryTimes, k => if k == 0 then Some(first) else Some(below))
  }

  lemma DescendingDiffers(first: int, below: int, retryTimes: nat)
    requires first != below && retryTimes >= 2
    ensures var different := Different(first, DescendingPicks(first, below, retryTimes));
            different != [] && different[0] == below
  {
    var picks := DescendingPicks(first, below, retryTimes);
    assert picks[0] == Some(first) && picks[1..][0] == Some(below);
  }

  lemma DescentFrom(t: Table, list: seq<Cached>, group: string, model: string, first: int, below: int, retryTimes: nat)
    requires list != [] && first in Picks(list, false) && below in Picks(list, true) && below in Lower(t, group, model)
    requires first != below && retryTimes >= 2
    ensures Descends(t, list, group, model, first, DescendingPicks(first, below, retryTimes))
  {
    hide Picks, Lower, Different;
    DescendingDiffers(first, below, retryTimes);
  }

  lemma DescentExists(t: Table, list: seq<Cached>, group: string, model: string, retryTimes: nat)
    requires Layered(t, list, group, model) && retryTimes >= 2
    ensures CanDescend(t, list, group, model, retryTimes)
  {
    assert list != [];
    hide Layered, Picks, Top, Lower, Descends;
    LayeredPicks(t, list, group, model);
    TopIsNotLower(t, group, model);
    Collections.SomeInt(Top(t, group, model));
    Collections.SomeInt(Lower(t, group, model));
    var first :| first in Top(t, group, model);
    var below :| below in Lower(t, group, model);
    DescentFrom(t, list, group, model, first, below, retryTimes);
  }

  /** Whatever the priorities are, every attempt goes to an enabled channel that lists the group and the model. */
  lemma AttemptsServe(t: Table, list: seq<Cached>, group: string, model: string,
                      first: int, picks: seq<Option<int>>, channels: seq<int>)
    requires AllAgree(t) && ListOf(t, list, group, model) && Routed(list, first, picks, channels)
    ensures forall j :: 0 <= j < |channels| ==> channels[j] in Query(t, group, model, true)
    ensures forall j :: 0 <= j < |channels| ==>
              && channels[j] in t.channels && t.channels[channels[j]].status == 1
              && group in Entries(t.channels[channels[j]].group) && model in Entries(t.channels[channels[j]].models)
  {
    hide Picks, Query, AllAgree, ListOf, Different, AllEqual;
    PicksAreQueries(t, list, group, model);
    IndexAgrees(t, list, group, model);
    forall j | 0 <= j < |channels| ensures channels[j] in Query(t, group, model, true) {
      if j > 0 {
        var k := ChannelIsPick(first, picks, channels, j);
        assert picks[k].value in Picks(list, k != 0);
      }
    }
  }
}
