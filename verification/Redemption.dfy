/** Redemption codes: each transaction pays the quota of a code to a user and marks the code as used. */
module Redemption {
  import opened Database
  import opened Wrappers
  import Collections

  const ENABLED := 1
  const USED := 3

  datatype Code = Code(status: int, quota: int)

  datatype Bank = Bank(users: Column, codes: map<string, Code>)

  /** The codes by key; a used code stays in the table. */
  class Redemptions {
    var users: Column
    var codes: map<string, Code>

    ghost function State(): Bank
      reads this
    {
      Bank(users, codes)
    }

    constructor (users: Column, codes: map<string, Code>)
      ensures State() == Bank(users, codes)
    {
      this.users, this.codes := users, codes;
    }

    method Redeem(key: string, userId: int) returns (quota: Result<int>)
      modifies this
      ensures State() == After(old(State()), Call(key, userId))
      ensures quota.Ok? <==> key != "" && userId != 0 && key in old(codes) && old(codes)[key].status == 1
      ensures quota.Ok? ==> quota.value == old(codes)[key].quota
    {
      if key == "" {
        return Err("Redemption code not provided");
      }
      if userId == 0 {
        return Err("Invalid user id");
      }
      if key !in codes {
        return Err("Redemption failed, Invalid redemption code");
      }
      var redemption := codes[key];
      if redemption.status != ENABLED {
        return Err("Redemption failed, This redemption code has been used");
      }
      users := Added(users, userId, redemption.quota);
      codes := codes[key := redemption.(status := USED)];
      return Ok(redemption.quota);
    }
  }

  datatype Call = Call(key: string, userId: int)

  predicate Accepted(b: Bank, call: Call) {
    call.key != "" && call.userId != 0 && call.key in b.codes && b.codes[call.key].status == ENABLED
  }

  function After(b: Bank, call: Call): Bank {
    if Accepted(b, call) then
      var code := b.codes[call.key];
      Bank(Added(b.users, call.userId, code.quota), b.codes[call.key := code.(status := USED)])
    else b
  }

  // ---- Runs ----

  function AfterAll(b: Bank, calls: seq<Call>): (c: Bank)
    ensures c.codes.Keys == b.codes.Keys && c.users.Keys == b.users.Keys
  {
    if calls == [] then b else After(AfterAll(b, calls[..|calls| - 1]), calls[|calls| - 1])
  }

  /** The calls of a run that are accepted. */
  function AcceptedCalls(b: Bank, calls: seq<Call>): (accepted: seq<Call>)
    ensures forall call :: call in accepted ==> call.key in b.codes
  {
    if calls == [] then []
    else
      var (before, call) := (calls[..|calls| - 1], calls[|calls| - 1]);
      AcceptedCalls(b, before) + if Accepted(AfterAll(b, before), call) then [call] else []
  }

  /** The codes of `a` that are used up in `b`. */
  function NewlyUsed(a: Bank, b: Bank): set<string> {
    set key | key in a.codes && key in b.codes && a.codes[key].status == ENABLED && b.codes[key].status == USED
  }

  function PaidTo(codes: map<string, Code>, calls: seq<Call>, users: set<int>): int
    requires forall call :: call in calls ==> call.key in codes
  {
    if calls == [] then 0
    else
      var last := calls[|calls| - 1];
      PaidTo(codes, calls[..|calls| - 1], users) + if last.userId in users then codes[last.key].quota else 0
  }

  ghost function TotalOf(codes: map<string, Code>, keys: set<string>): int
    requires keys <= codes.Keys
  {
    if keys == {} then 0
    else
      Collections.SomeString(keys);
      var key :| key in keys;
      codes[key].quota + TotalOf(codes, keys - {key})
  }

  lemma {:induction false} TotalWithout(codes: map<string, Code>, keys: set<string>, key: string)
    requires key in keys && keys <= codes.Keys
    ensures TotalOf(codes, keys) == codes[key].quota + TotalOf(codes, keys - {key})
  {
    Collections.SomeString(keys);
    var other :| other in keys && TotalOf(codes, keys) == codes[other].quota + TotalOf(codes, keys - {other});
    if other != key {
      TotalWithout(codes, keys - {other}, key);
      TotalWithout(codes, keys - {key}, other);
      assert keys - {other} - {key} == keys - {key} - {other};
    }
  }

  /** Only enabled codes change, and only by being used. */
  lemma {:induction false} CodesKept(b: Bank, calls: seq<Call>)
    ensures var c := AfterAll(b, calls);
            forall key :: key in b.codes ==>
                 c.codes[key] == b.codes[key] || (b.codes[key].status == ENABLED && c.codes[key] == b.codes[key].(status := USED))
  {
    if calls != [] {
      CodesKept(b, calls[..|calls| - 1]);
    }
  }

  lemma AcceptedNext(b: Bank, before: seq<Call>, call: Call)
    ensures var middle := AfterAll(b, before);
            && AfterAll(b, before + [call]) == After(middle, call)
            && AcceptedCalls(b, before + [call])
               == if Accepted(middle, call) then AcceptedCalls(b, before) + [call] else AcceptedCalls(b, before)
  {
    assert (before + [call])[..|before|] == before;
  }

  lemma UsedNext(b: Bank, before: seq<Call>, call: Call)
    requires Accepted(AfterAll(b, before), call)
    ensures call.key in b.codes
    ensures var (middle, used) := (AfterAll(b, before), NewlyUsed(b, AfterAll(b, before + [call])));
            && call.key in used && used - {call.key} == NewlyUsed(b, middle)
            && middle.codes[call.key].quota == b.codes[call.key].quota
  {
    CodesKept(b, before);
    AcceptedNext(b, before, call);
    var middle := AfterAll(b, before);
    assert NewlyUsed(b, After(middle, call)) == NewlyUsed(b, middle) + {call.key};
    assert call.key !in NewlyUsed(b, middle);
  }

  function KeysOf(calls: seq<Call>): set<string> {
    set call | call in calls :: call.key
  }

  /** The accepted calls are for different codes, and these are the codes that became used. */
  lemma {:induction false} EachCodeOnce(b: Bank, calls: seq<Call>)
    ensures var accepted := AcceptedCalls(b, calls);
            && (forall i, j :: 0 <= i < j < |accepted| ==> accepted[i].key != accepted[j].key)
            && KeysOf(accepted) == NewlyUsed(b, AfterAll(b, calls))
  {
    if calls == [] {
      assert NewlyUsed(b, b) == {};
    } else {
      var (before, call) := (calls[..|calls| - 1], calls[|calls| - 1]);
      assert calls == before + [call];
      AcceptedNext(b, before, call);
      EachCodeOnce(b, before);
      hide AcceptedCalls, AfterAll, NewlyUsed;
      if Accepted(AfterAll(b, before), call) {
        UsedNext(b, before, call);
        var earlier := AcceptedCalls(b, before);
        assert KeysOf(earlier + [call]) == KeysOf(earlier) + {call.key};
        forall i | 0 <= i < |earlier| ensures earlier[i].key != call.key {
          assert earlier[i].key in KeysOf(earlier);
        }
      }
    }
  }

  lemma PaidNext(codes: map<string, Code>, accepted: seq<Call>, call: Call, users: set<int>)
    requires forall c :: c in accepted ==> c.key in codes
    requires call.key in codes
    ensures PaidTo(codes, accepted + [call], users)
            == PaidTo(codes, accepted, users) + if call.userId in users then codes[call.key].quota else 0
  {
    assert (accepted + [call])[..|accepted|] == accepted;
  }

  /** The payment of a call arrives when the user exists, or when there is nothing to pay. */
  predicate Arrives(b: Bank, call: Call) {
    call.userId in b.users || (call.key in b.codes && b.codes[call.key].quota == 0)
  }

  /**
    All users together are paid what the codes that became used were worth, exactly when no accepted
    call is for a user who does not exist.
   */
  lemma {:induction false} PaidIsUsedIff(b: Bank, calls: seq<Call>)
    requires forall key :: key in b.codes ==> b.codes[key].quota >= 0
    ensures var (accepted, used) := (AcceptedCalls(b, calls), NewlyUsed(b, AfterAll(b, calls)));
            && PaidTo(b.codes, accepted, b.users.Keys) <= TotalOf(b.codes, used)
            && (PaidTo(b.codes, accepted, b.users.Keys) == TotalOf(b.codes, used)
                <==> AllArrive(b, accepted))
  {
    if calls == [] {
      assert NewlyUsed(b, b) == {};
    } else {
      var (before, call) := (calls[..|calls| - 1], calls[|calls| - 1]);
      assert calls == before + [call];
      var accepted := AcceptedCalls(b, before);
      AcceptedNext(b, before, call);
      PaidIsUsedIff(b, before);
      hide AcceptedCalls, AfterAll, NewlyUsed, PaidTo, TotalOf, Accepted, AllArrive;
      if Accepted(AfterAll(b, before), call) {
        PaidIsUsedNext(b, before, call);
      }
    }
  }

  ghost predicate AllArrive(b: Bank, calls: seq<Call>) {
    forall call :: call in calls ==> Arrives(b, call)
  }

  lemma PaidIsUsedNext(b: Bank, before: seq<Call>, call: Call)
    requires Accepted(AfterAll(b, before), call)
    ensures call.key in b.codes
    ensures var (accepted, used) := (AcceptedCalls(b, before), NewlyUsed(b, AfterAll(b, before)));
            var (code, next) := (b.codes[call.key], NewlyUsed(b, AfterAll(b, before + [call])));
            && AcceptedCalls(b, before + [call]) == accepted + [call]
            && TotalOf(b.codes, next) == TotalOf(b.codes, used) + code.quota
            && PaidTo(b.codes, accepted + [call], b.users.Keys)
               == PaidTo(b.codes, accepted, b.users.Keys) + (if call.userId in b.users then code.quota else 0)
            && (AllArrive(b, accepted + [call]) <==> AllArrive(b, accepted) && Arrives(b, call))
  {
    AcceptedNext(b, before, call);
    UsedNext(b, before, call);
    hide AcceptedCalls, AfterAll, PaidTo, TotalOf, Accepted;
    TotalWithout(b.codes, NewlyUsed(b, AfterAll(b, before + [call])), call.key);
    PaidNext(b.codes, AcceptedCalls(b, before), call, b.users.Keys);
    AllArriveNext(b, AcceptedCalls(b, before), call);
  }

  lemma AllArriveNext(b: Bank, calls: seq<Call>, call: Call)
    ensures AllArrive(b, calls + [call]) <==> AllArrive(b, calls) && Arrives(b, call)
  {
    hide Arrives;
    assert call in calls + [call];
    forall c | c in calls ensures c in calls + [call] {
    }
  }

  ghost function Sum(column: Column, ids: set<int>): int
    requires ids <= column.Keys
  {
    if ids == {} then 0
    else
      Collections.SomeInt(ids);
      var id :| id in ids;
      column[id] + Sum(column, ids - {id})
  }

  lemma {:induction false} SumWithout(column: Column, ids: set<int>, id: int)
    requires id in ids && ids <= column.Keys
    ensures Sum(column, ids) == column[id] + Sum(column, ids - {id})
  {
    Collections.SomeInt(ids);
    var other :| other in ids && Sum(column, ids) == column[other] + Sum(column, ids - {other});
    if other != id {
      SumWithout(column, ids - {other}, id);
      SumWithout(column, ids - {id}, other);
      assert ids - {other} - {id} == ids - {id} - {other};
    }
  }

  lemma {:induction false} SumAdded(column: Column, ids: set<int>, id: int, value: int)
    requires ids <= column.Keys
    ensures Sum(Added(column, id, value), ids) == Sum(column, ids) + if id in ids then value else 0
    decreases |ids|
  {
    if ids != {} {
      Collections.SomeInt(ids);
      var other :| other in ids;
      SumWithout(column, ids, other);
      SumWithout(Added(column, id, value), ids, other);
      SumAdded(column, ids - {other}, id, value);
    }
  }

  /** The balances of some users grow by what the codes of the accepted calls for them are worth. */
  lemma {:induction false} BalancesGrow(b: Bank, calls: seq<Call>, ids: set<int>)
    requires ids <= b.users.Keys
    ensures Sum(AfterAll(b, calls).users, ids) == Sum(b.users, ids) + PaidTo(b.codes, AcceptedCalls(b, calls), ids)
  {
    if calls != [] {
      var (before, call) := (calls[..|calls| - 1], calls[|calls| - 1]);
      assert calls == before + [call];
      AcceptedNext(b, before, call);
      CodesKept(b, before);
      BalancesGrow(b, before, ids);
      hide AcceptedCalls, AfterAll, NewlyUsed, PaidTo, Sum, Accepted;
      var middle := AfterAll(b, before);
      if Accepted(middle, call) {
        UsedNext(b, before, call);
        PaidNext(b.codes, AcceptedCalls(b, before), call, ids);
        SumAdded(middle.users, ids, call.userId, b.codes[call.key].quota);
      }
    }
  }

  lemma UsedStaysUsed(b: Bank, call: Call, key: string)
    requires key in b.codes && b.codes[key].status == 3
    ensures After(b, call).codes[key].status == 3
  {
    hide Added;
  }

  lemma EnabledIsAccepted(b: Bank, call: Call)
    requires call.key != "" && call.userId != 0 && call.key in b.codes && b.codes[call.key].status == 1
    ensures Accepted(b, call)
    ensures After(b, call).users == Added(b.users, call.userId, b.codes[call.key].quota)
    ensures After(b, call).codes[call.key].status == 3
  {
    hide Added;
  }

  /** A code that is enabled when a user calls for it is accepted then, pays, and is used ever after; other calls do nothing. */
  lemma {:induction false} EnabledCodeIsUsed(b: Bank, calls: seq<Call>, i: nat)
    requires i < |calls|
    ensures var (call, now) := (calls[i], AfterAll(b, calls[..i]));
            if call.key != "" && call.userId != 0 && call.key in now.codes && now.codes[call.key].status == 1 then
              && calls[i] in AcceptedCalls(b, calls)
              && AfterAll(b, calls).codes[call.key].status == 3
              && AfterAll(b, calls[..i + 1]).users == Added(now.users, call.userId, now.codes[call.key].quota)
            else AfterAll(b, calls[..i + 1]) == now
  {
    hide Added, After, Accepted;
    var (n, call, now) := (|calls| - 1, calls[i], AfterAll(b, calls[..i]));
    if call.key != "" && call.userId != 0 && call.key in now.codes && now.codes[call.key].status == 1 {
      if i < n {
        EnabledCodeIsUsed(b, calls[..n], i);
        assert calls[..n][..i] == calls[..i] && calls[..n][..i + 1] == calls[..i + 1];
        UsedStaysUsed(AfterAll(b, calls[..n]), calls[n], call.key);
      } else {
        assert calls[..i + 1] == calls;
        EnabledIsAccepted(now, call);
      }
    } else {
      assert calls[..i + 1][..i] == calls[..i];
      OtherIsRefused(now, call);
    }
  }

  lemma OtherIsRefused(b: Bank, call: Call)
    requires call.key == "" || call.userId == 0 || call.key !in b.codes || b.codes[call.key].status != 1
    ensures After(b, call) == b
  {
  }
}
