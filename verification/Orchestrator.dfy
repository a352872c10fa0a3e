/** The polling pass of server/schedule/orchestrator.go. */
module Orchestrator {
  import opened Options
  import opened Storage

  const SCHEDULING_UPDATE_PERIOD := 30.0
  const BALANCE := 0

  datatype ScheduleInfo = ScheduleInfo(backends: map<string, real>, strategy: int)

  /** A room in a backend's answer, with the moment at which its binding is refreshed. */
  datatype Listed = Listed(room: string, at: real)

  /** What asking a backend for its rooms brings. */
  datatype Reply = Unreachable | Unreadable | Malformed | Rooms(listed: seq<Listed>)

  // Host names

  function Decimal(n: nat): string {
    if n < 10 then ["0123456789"[n]] else Decimal(n / 10) + ["0123456789"[n % 10]]
  }

  /** The address of the i-th backend. */
  function Host(i: nat): string {
    "vc-backend-" + Decimal(i) + ".ws-backend-service:8080"
  }

  /** The value of a string of decimal digits. */
  function Value(numeral: string): int {
    if numeral == [] then 0
    else 10 * Value(numeral[..|numeral| - 1]) + (numeral[|numeral| - 1] as int - '0' as int)
  }

  /** Decimal digits without a leading zero. */
  predicate IsNumeral(numeral: string) {
    && numeral != []
    && (forall k :: 0 <= k < |numeral| ==> '0' <= numeral[k] <= '9')
    && (|numeral| > 1 ==> numeral[0] != '0')
  }

  /** The address of the backend with this number, read off the address. */
  ghost predicate IsHost(host: string, i: nat) {
    exists numeral ::
      IsNumeral(numeral) && Value(numeral) == i && host == "vc-backend-" + numeral + ".ws-backend-service:8080"
  }

  lemma DigitValue(d: nat)
    requires d < 10
    ensures '0' <= "0123456789"[d] <= '9' && "0123456789"[d] as int - '0' as int == d
    ensures "0123456789"[d] == '0' <==> d == 0
  {
    assert d == 0 || d == 1 || d == 2 || d == 3 || d == 4 || d == 5 || d == 6 || d == 7 || d == 8 || d == 9;
  }

  /** The decimal form of a number has the value of the number, and no other numeral has. */
  lemma {:induction false} DecimalIsNumeral(n: nat)
    ensures IsNumeral(Decimal(n)) && Value(Decimal(n)) == n
    ensures n > 0 ==> Decimal(n)[0] != '0'
  {
    if n < 10 {
      DigitValue(n);
      assert Decimal(n)[..0] == [];
    } else {
      DigitValue(n % 10);
      DecimalIsNumeral(n / 10);
      var front, last := Decimal(n / 10), "0123456789"[n % 10];
      assert Decimal(n) == front + [last] && (front + [last])[..|front|] == front;
    }
  }

  lemma DigitOf(c: char)
    requires '0' <= c <= '9'
    ensures 0 <= c as int - '0' as int < 10 && "0123456789"[c as int - '0' as int] == c
  {
    DigitValue(c as int - '0' as int);
    assert "0123456789"[c as int - '0' as int] as int == c as int;
  }

  lemma DecimalAppends(n: nat, d: nat)
    requires n > 0 && d < 10
    ensures Decimal(10 * n + d) == Decimal(n) + ["0123456789"[d]]
  {
    assert (10 * n + d) / 10 == n && (10 * n + d) % 10 == d;
  }

  lemma {:induction false} NumeralIsDecimal(numeral: string)
    requires IsNumeral(numeral)
    ensures Value(numeral) >= 0 && Decimal(Value(numeral)) == numeral
  {
    hide *;
    NumeralSplits(numeral);
    var n := |numeral| - 1;
    var front, d := numeral[..n], numeral[n] as int - '0' as int;
    DigitOf(numeral[n]);
    if n > 0 {
      NumeralIsDecimal(front);
      DecimalAppends(Value(front), d);
      assert numeral == front + [numeral[n]];
    } else {
      OneDigit(numeral, d);
    }
  }

  lemma NumeralSplits(numeral: string)
    requires IsNumeral(numeral)
    ensures numeral != [] && '0' <= numeral[|numeral| - 1] <= '9'
    ensures |numeral| > 1 ==>
              var front := numeral[..|numeral| - 1];
              && IsNumeral(front) && Value(front) > 0
              && Value(numeral) == 10 * Value(front) + (numeral[|numeral| - 1] as int - '0' as int)
  {
    if |numeral| > 1 {
      NumeralIsPositive(numeral[..|numeral| - 1]);
    }
  }

  lemma OneDigit(numeral: string, d: nat)
    requires |numeral| == 1 && d < 10 && numeral[0] == "0123456789"[d] && numeral[0] as int - '0' as int == d
    ensures Value(numeral) == d && Decimal(d) == numeral
  {
    assert numeral[..0] == [];
  }

  lemma {:induction false} NumeralIsPositive(numeral: string)
    requires numeral != [] && numeral[0] != '0' && forall k :: 0 <= k < |numeral| ==> '0' <= numeral[k] <= '9'
    ensures Value(numeral) > 0
  {
    var n := |numeral| - 1;
    if n > 0 {
      NumeralIsPositive(numeral[..n]);
    } else {
      assert numeral[..0] == [];
    }
  }

  /** The i-th address is the one that has the numeral of i in it. */
  lemma HostIsExactly(host: string, i: nat)
    ensures IsHost(host, i) <==> host == Host(i)
  {
    DecimalIsNumeral(i);
    if IsHost(host, i) {
      var numeral :|
        IsNumeral(numeral) && Value(numeral) == i && host == "vc-backend-" + numeral + ".ws-backend-service:8080";
      NumeralIsDecimal(numeral);
    }
  }

  /** Different backends have different addresses. */
  lemma HostsDiffer(i: nat, j: nat)
    requires Host(i) == Host(j)
    ensures i == j
  {
    var prefix, suffix := "vc-backend-", ".ws-backend-service:8080";
    assert Host(i)[|prefix|..|Host(i)| - |suffix|] == Decimal(i);
    assert Host(j)[|prefix|..|Host(j)| - |suffix|] == Decimal(j);
    DecimalIsNumeral(i);
    DecimalIsNumeral(j);
  }

  // What a pass writes

  /** Refreshing the first n of some bindings. */
  function Bindings(listed: seq<Listed>, host: string, n: nat): seq<Op>
    requires n <= |listed|
  {
    seq(n, j requires 0 <= j < n => Put(listed[j].room, host, listed[j].at))
  }

  /** What one backend's answer makes the pass write. */
  function Answer(reply: Reply, host: string): seq<Op> {
    if reply.Rooms? then Bindings(reply.listed, host, |reply.listed|) else []
  }

  /** What the answers of the first n backends make the pass write. */
  function Refreshes(replies: seq<Reply>, n: nat): seq<Op>
    requires n <= |replies|
  {
    if n == 0 then [] else Refreshes(replies, n - 1) + Answer(replies[n - 1], Host(n - 1))
  }

  /** Backend i lists the room at place j. */
  predicate ListedAt(replies: seq<Reply>, i: nat, j: nat, room: string) {
    i < |replies| && replies[i].Rooms? && j < |replies[i].listed| && replies[i].listed[j].room == room
  }

  /** A backend stays in the schedule if it answers, and also if it cannot be reached: only an answer that makes no
      sense puts it out. */
  predicate Scheduled(reply: Reply) {
    !reply.Unreadable? && !reply.Malformed?
  }

  lemma {:induction false} NotListed(ops: seq<Op>, replies: seq<Reply>, n: nat, room: string)
    requires n <= |replies| && forall i: nat, j: nat :: i < n ==> !ListedAt(replies, i, j, room)
    ensures LastPut(ops + Refreshes(replies, n), room) == LastPut(ops, room)
  {
    if n == 0 {
      assert ops + [] == ops;
    } else {
      var before, answer := ops + Refreshes(replies, n - 1), Answer(replies[n - 1], Host(n - 1));
      assert ops + Refreshes(replies, n) == before + answer;
      hide Host, Answer, LastPut, Refreshes;
      NotListedHere(replies, n, room, answer);
      LastPutConcat(before, answer, room);
      NotListed(ops, replies, n - 1, room);
    }
  }

  lemma {:induction false} NotListedHere(replies: seq<Reply>, n: nat, room: string, answer: seq<Op>)
    requires 0 < n <= |replies| && forall i: nat, j: nat :: i < n ==> !ListedAt(replies, i, j, room)
    requires answer == Answer(replies[n - 1], Host(n - 1))
    ensures forall k :: 0 <= k < |answer| ==> !Touches(answer[k], room)
  {
    hide Host;
    forall k | 0 <= k < |answer| ensures !Touches(answer[k], room) {
      assert !ListedAt(replies, n - 1, k, room);
    }
  }

  lemma {:induction false} LastOfBindings(listed: seq<Listed>, host: string, n: nat, j: nat, room: string)
    requires j < n <= |listed| && listed[j].room == room
    requires forall k :: 0 <= k < n && listed[k].room == room ==> k == j
    ensures LastPut(Bindings(listed, host, n), room) == Some(Entry(host, listed[j].at))
    ensures Touches(Bindings(listed, host, n)[j], room)
  {
    var last := Put(listed[n - 1].room, host, listed[n - 1].at);
    assert Bindings(listed, host, n) == Bindings(listed, host, n - 1) + [last];
    LastPutSnoc(Bindings(listed, host, n - 1), last, room);
    if j < n - 1 {
      LastOfBindings(listed, host, n - 1, j, room);
    }
  }

  /** Among the first n backends only the i-th lists the room, once. */
  ghost predicate OnlyAt(replies: seq<Reply>, n: nat, i: nat, j: nat, room: string) {
    && i < n && ListedAt(replies, i, j, room)
    && forall i1: nat, j1: nat :: i1 < n && ListedAt(replies, i1, j1, room) ==> i1 == i && j1 == j
  }

  /** After a pass, a room that one backend lists once is bound to that backend from that moment, and a room that no
      backend lists is bound as it was before. */
  lemma {:induction false} PassBinds(ops: seq<Op>, replies: seq<Reply>, n: nat, room: string)
    requires n <= |replies|
    ensures (forall i: nat, j: nat :: i < n ==> !ListedAt(replies, i, j, room)) ==>
              LastPut(ops + Refreshes(replies, n), room) == LastPut(ops, room)
    ensures forall i: nat, j: nat :: OnlyAt(replies, n, i, j, room) ==>
              LastPut(ops + Refreshes(replies, n), room) == Some(Entry(Host(i), replies[i].listed[j].at))
              && IsHost(Host(i), i)
  {
    if forall i: nat, j: nat :: i < n ==> !ListedAt(replies, i, j, room) {
      NotListed(ops, replies, n, room);
    }
    forall i: nat, j: nat | OnlyAt(replies, n, i, j, room)
      ensures LastPut(ops + Refreshes(replies, n), room) == Some(Entry(Host(i), replies[i].listed[j].at))
              && IsHost(Host(i), i)
    {
      HostIsExactly(Host(i), i);
      OnceListed(ops, replies, n, i, j, room);
    }
  }

  lemma {:induction false} OnceListed(ops: seq<Op>, replies: seq<Reply>, n: nat, i: nat, j: nat, room: string)
    requires n <= |replies| && OnlyAt(replies, n, i, j, room)
    ensures LastPut(ops + Refreshes(replies, n), room) == Some(Entry(Host(i), replies[i].listed[j].at))
  {
    var before, answer := ops + Refreshes(replies, n - 1), Answer(replies[n - 1], Host(n - 1));
    assert ops + Refreshes(replies, n) == before + answer;
    LastPutConcat(before, answer, room);
    if i == n - 1 {
      ListedHere(replies, n, j, room);
    } else {
      ListedElsewhere(replies, n, i, j, room, answer);
      OnceListed(ops, replies, n - 1, i, j, room);
    }
  }

  lemma {:induction false} ListedHere(replies: seq<Reply>, n: nat, j: nat, room: string)
    requires 0 < n <= |replies| && OnlyAt(replies, n, n - 1, j, room)
    ensures var answer := Answer(replies[n - 1], Host(n - 1));
      && LastPut(answer, room) == Some(Entry(Host(n - 1), replies[n - 1].listed[j].at))
      && j < |answer| && Touches(answer[j], room)
  {
    hide Host, LastPut;
    var listed := replies[n - 1].listed;
    forall k: nat | k < |listed| && listed[k].room == room ensures k == j {
      assert ListedAt(replies, n - 1, k, room);
    }
    LastOfBindings(listed, Host(n - 1), |listed|, j, room);
  }

  lemma {:induction false} ListedElsewhere(replies: seq<Reply>, n: nat, i: nat, j: nat, room: string, answer: seq<Op>)
    requires 0 < n <= |replies| && i < n - 1 && OnlyAt(replies, n, i, j, room)
    requires answer == Answer(replies[n - 1], Host(n - 1))
    ensures forall k: nat :: k < |answer| ==> !Touches(answer[k], room)
    ensures OnlyAt(replies, n - 1, i, j, room)
  {
    hide Host;
    forall k: nat | k < |answer| ensures !Touches(answer[k], room) {
      assert !ListedAt(replies, n - 1, k, room);
    }
  }

  /** An operation binds a room to the backend, among the first n, that has listed it, at the moment it is refreshed. */
  ghost predicate BindsListed(replies: seq<Reply>, n: nat, op: Op) {
    op.Put? && exists i: nat, j: nat ::
      i < n && ListedAt(replies, i, j, op.key) && op.at == replies[i].listed[j].at && IsHost(op.value, i)
  }

  /** Among some operations there is the one that binds a listed room to backend i. */
  ghost predicate IsBound(ops: seq<Op>, listed: Listed, i: nat) {
    exists k :: 0 <= k < |ops| && ops[k].Put? && ops[k].key == listed.room && ops[k].at == listed.at
                && IsHost(ops[k].value, i)
  }

  /** Some operations bind exactly the rooms that the first n backends have listed, each to the one that did. */
  ghost predicate BindsAll(replies: seq<Reply>, n: nat, ops: seq<Op>)
    requires n <= |replies|
  {
    && (forall k :: 0 <= k < |ops| ==> BindsListed(replies, n, ops[k]))
    && (forall i: nat, j: nat :: i < n && replies[i].Rooms? && j < |replies[i].listed| ==>
          IsBound(ops, replies[i].listed[j], i))
  }

  lemma {:induction false} AnswerBinds(replies: seq<Reply>, i: nat, listed: seq<Listed>, answer: seq<Op>)
    requires i < |replies| && answer == Answer(replies[i], Host(i))
    requires listed == if replies[i].Rooms? then replies[i].listed else []
    ensures forall k :: 0 <= k < |answer| ==> BindsListed(replies, i + 1, answer[k])
    ensures forall j: nat :: j < |listed| ==> IsBound(answer, listed[j], i)
  {
    HostIsExactly(Host(i), i);
    hide Host, IsHost;
    forall k | 0 <= k < |answer| ensures BindsListed(replies, i + 1, answer[k]) {
      assert ListedAt(replies, i, k, answer[k].key);
    }
    forall j: nat | j < |listed| ensures IsBound(answer, listed[j], i) {
      assert answer[j].Put?;
    }
  }

  lemma IsBoundStays(ops: seq<Op>, more: seq<Op>, listed: Listed, i: nat)
    requires IsBound(ops, listed, i) || IsBound(more, listed, i)
    ensures IsBound(ops + more, listed, i)
  {
    hide IsHost;
    if IsBound(ops, listed, i) {
      var k :| 0 <= k < |ops| && ops[k].Put? && ops[k].key == listed.room && ops[k].at == listed.at
               && IsHost(ops[k].value, i);
      assert (ops + more)[k] == ops[k];
    } else {
      var k :| 0 <= k < |more| && more[k].Put? && more[k].key == listed.room && more[k].at == listed.at
               && IsHost(more[k].value, i);
      assert (ops + more)[|ops| + k] == more[k];
    }
  }

  lemma BindsListedLater(replies: seq<Reply>, n: nat, op: Op)
    requires BindsListed(replies, n, op)
    ensures BindsListed(replies, n + 1, op)
  {
    hide IsHost;
  }

  lemma {:induction false} BindsMore(replies: seq<Reply>, n: nat, before: seq<Op>, answer: seq<Op>)
    requires n < |replies| && BindsAll(replies, n, before) && answer == Answer(replies[n], Host(n))
    ensures BindsAll(replies, n + 1, before + answer)
  {
    AnswerBinds(replies, n, if replies[n].Rooms? then replies[n].listed else [], answer);
    hide Host, Answer, IsBound, BindsListed;
    var ops := before + answer;
    forall k | 0 <= k < |ops| ensures BindsListed(replies, n + 1, ops[k]) {
      if k < |before| {
        BindsListedLater(replies, n, before[k]);
      } else {
        assert ops[k] == answer[k - |before|];
      }
    }
    forall i: nat, j: nat | i < n + 1 && replies[i].Rooms? && j < |replies[i].listed|
      ensures IsBound(ops, replies[i].listed[j], i)
    {
      IsBoundStays(before, answer, replies[i].listed[j], i);
    }
  }

  lemma NothingToBind(replies: seq<Reply>)
    ensures BindsAll(replies, 0, [])
  {
  }

  /** What a pass writes, without naming how it is computed. */
  lemma {:induction false} RefreshesBindAll(replies: seq<Reply>, n: nat)
    requires n <= |replies|
    ensures BindsAll(replies, n, Refreshes(replies, n))
  {
    hide Host, Answer, BindsAll;
    if n == 0 {
      NothingToBind(replies);
    } else {
      RefreshesBindAll(replies, n - 1);
      BindsMore(replies, n - 1, Refreshes(replies, n - 1), Answer(replies[n - 1], Host(n - 1)));
    }
  }

  class Orchestrator {
    const store: RedisBackend
    var published: seq<ScheduleInfo>

    constructor (store: RedisBackend)
      ensures this.store == store && published == []
    {
      this.store, published := store, [];
    }

    /** One pass over all backends, given what each of them answers: the bindings of the rooms are refreshed, and
        the backends that stay in the schedule are published. */
    method UpdateBackendInfo(replies: seq<Reply>)
      requires store.Valid()
      modifies this`published, store
      ensures store.Valid() && store.ops == old(store.ops) + Refreshes(replies, |replies|)
      ensures |published| == |old(published)| + 1 && published[..|old(published)|] == old(published)
      ensures BindsAll(replies, |replies|, store.ops[|old(store.ops)|..])
      ensures forall h :: h in published[|old(published)|].backends <==>
                exists i :: 0 <= i < |replies| && (replies[i].Rooms? || replies[i].Unreachable?) && IsHost(h, i)
      ensures published[|old(published)|].strategy == 0
      ensures forall h :: h in published[|old(published)|].backends ==> published[|old(published)|].backends[h] == 1.0
    {
      hide Host, Bindings, IsHost, BindsAll;
      var b: map<string, real> := map[];
      assert store.ops == old(store.ops) + Refreshes(replies, 0);
      for i := 0 to |replies|
        invariant store.Valid() && store.ops == old(store.ops) + Refreshes(replies, i) && published == old(published)
        invariant forall h :: h in b ==> b[h] == 1.0
        invariant forall h :: h in b <==> exists k :: 0 <= k < i && Scheduled(replies[k]) && h == Host(k)
      {
        var host := Host(i);
        if replies[i].Unreadable? || replies[i].Malformed? {
          continue;
        }
        if replies[i].Rooms? {
          RefreshRooms(replies[i].listed, host);
        }
        b := b[host := 1.0];
        assert Scheduled(replies[i]);
      }
      forall h, i: nat { HostIsExactly(h, i); }
      RefreshesBindAll(replies, |replies|);
      assert store.ops[|old(store.ops)|..] == Refreshes(replies, |replies|);
      published := published + [ScheduleInfo(b, BALANCE)];
    }

    /** Refreshes the bindings of the rooms that one backend has listed. */
    method RefreshRooms(listed: seq<Listed>, host: string)
      requires store.Valid()
      modifies store
      ensures store.Valid() && store.ops == old(store.ops) + Bindings(listed, host, |listed|)
    {
      assert store.ops == old(store.ops) + Bindings(listed, host, 0);
      for j := 0 to |listed|
        invariant store.Valid() && store.ops == old(store.ops) + Bindings(listed, host, j)
      {
        store.Set(listed[j].room, host, listed[j].at);
        assert Bindings(listed, host, j + 1) == Bindings(listed, host, j) + [Put(listed[j].room, host, listed[j].at)];
      }
    }
  }
}
