/** The key-value stores of server/schedule/storage.go: a plain map, and Redis, where entries expire. */
module Storage {
  import opened Options

  /** Five minutes. */
  const REDIS_ENTRY_TTL := 300.0

  datatype Entry = Entry(value: string, writtenAt: real)

  datatype Op = Put(key: string, value: string, at: real) | Drop(dropped: string)

  predicate Touches(op: Op, key: string) {
    if op.Put? then op.key == key else op.dropped == key
  }

  /** What was put under a key last, unless it has been dropped since: the reference for both stores. */
  function LastPut(ops: seq<Op>, key: string): Option<Entry> {
    if ops == [] then None
    else
      var last := ops[|ops| - 1];
      if !Touches(last, key) then LastPut(ops[..|ops| - 1], key)
      else if last.Put? then Some(Entry(last.value, last.at))
      else None
  }

  /** An entry can be read for less than its lifetime. */
  predicate Fresh(e: Entry, now: real) {
    now < e.writtenAt + REDIS_ENTRY_TTL
  }

  lemma LastPutSnoc(ops: seq<Op>, op: Op, key: string)
    ensures LastPut(ops + [op], key) ==
              if !Touches(op, key) then LastPut(ops, key)
              else if op.Put? then Some(Entry(op.value, op.at))
              else None
  {
    assert (ops + [op])[..|ops|] == ops;
  }

  /** The later of two series of operations decides, if it touches the key at all. */
  lemma {:induction false} LastPutConcat(a: seq<Op>, b: seq<Op>, key: string)
    ensures (forall i :: 0 <= i < |b| ==> !Touches(b[i], key)) ==> LastPut(a + b, key) == LastPut(a, key)
    ensures (exists i :: 0 <= i < |b| && Touches(b[i], key)) ==> LastPut(a + b, key) == LastPut(b, key)
    decreases b
  {
    if b == [] {
      assert a + b == a;
    } else {
      var front, last := b[..|b| - 1], b[|b| - 1];
      assert a + b == (a + front) + [last] && b == front + [last];
      LastPutSnoc(a + front, last, key);
      LastPutSnoc(front, last, key);
      LastPutConcat(a, front, key);
    }
  }

  /** The last entry comes from some put. */
  lemma {:induction false} LastPutWasPut(ops: seq<Op>, key: string) returns (i: nat)
    requires LastPut(ops, key).Some?
    ensures i < |ops| && ops[i] == Put(key, LastPut(ops, key).value.value, LastPut(ops, key).value.writtenAt)
    ensures forall j :: i < j < |ops| ==> !Touches(ops[j], key)
  {
    var n := |ops| - 1;
    if Touches(ops[n], key) {
      i := n;
    } else {
      i := LastPutWasPut(ops[..n], key);
    }
  }

  /** The store without expiry. */
  class MemBackend {
    var m: map<string, string>

    /** Every operation so far. */
    ghost var ops: seq<Op>

    ghost predicate Valid()
      reads this
    {
      forall key :: Value(key) == (if LastPut(ops, key).Some? then LastPut(ops, key).value.value else "")
    }

    function Value(key: string): string
      reads this
    {
      if key in m then m[key] else ""
    }

    constructor ()
      ensures Valid() && ops == []
    {
      m, ops := map[], [];
    }

    /** A key that is not there reads as the empty string, which is no error. */
    method Get(key: string) returns (value: string)
      requires Valid()
      ensures value == if LastPut(ops, key).Some? then LastPut(ops, key).value.value else ""
    {
      value := Value(key);
    }

    method Set(key: string, value: string, ghost now: real)
      requires Valid()
      modifies this
      ensures Valid() && ops == old(ops) + [Put(key, value, now)]
    {
      forall k { LastPutSnoc(ops, Put(key, value, now), k); }
      m := m[key := value];
      ops := ops + [Put(key, value, now)];
    }

    method Del(key: string)
      requires Valid()
      modifies this
      ensures Valid() && ops == old(ops) + [Drop(key)]
    {
      forall k { LastPutSnoc(ops, Drop(key), k); }
      m := m - {key};
      ops := ops + [Drop(key)];
    }
  }

  /** The store in which every entry expires. */
  class RedisBackend {
    var entries: map<string, Entry>

    /** Every operation so far. */
    ghost var ops: seq<Op>

    ghost predicate Valid()
      reads this
    {
      forall key :: LastPut(ops, key) == if key in entries then Some(entries[key]) else None
    }

    constructor ()
      ensures Valid() && ops == []
    {
      entries, ops := map[], [];
    }

    /** A key that is not there, or not any more, is an error, with the empty string. */
    method Get(key: string, now: real) returns (value: string, ok: bool)
      requires Valid()
      ensures ok <==> LastPut(ops, key).Some? && Fresh(LastPut(ops, key).value, now)
      ensures value == Lookup(ops, key, now)
    {
      if key in entries && Fresh(entries[key], now) {
        return entries[key].value, true;
      } else {
        return "", false;
      }
    }

    method Set(key: string, value: string, now: real)
      requires Valid()
      modifies this
      ensures Valid() && ops == old(ops) + [Put(key, value, now)]
    {
      forall k { LastPutSnoc(ops, Put(key, value, now), k); }
      entries := entries[key := Entry(value, now)];
      ops := ops + [Put(key, value, now)];
    }

    method Del(key: string)
      requires Valid()
      modifies this
      ensures Valid() && ops == old(ops) + [Drop(key)]
    {
      forall k { LastPutSnoc(ops, Drop(key), k); }
      entries := entries - {key};
      ops := ops + [Drop(key)];
    }
  }

  /** What Redis answers for a key, given all operations so far. */
  function Lookup(ops: seq<Op>, key: string, now: real): string {
    var last := LastPut(ops, key);
    if last.Some? && Fresh(last.value, now) then last.value.value else ""
  }

  /** What the plain map answers. */
  function PlainLookup(ops: seq<Op>, key: string): string {
    var last := LastPut(ops, key);
    if last.Some? then last.value.value else ""
  }

  /** Redis answers like the plain map exactly while some put of the key is fresh, whatever else has been put and
      dropped; it never answers anything else but the empty string. */
  lemma RedisAgreesWithMap(ops: seq<Op>, key: string, now: real)
    requires forall i, j :: 0 <= i < j < |ops| && ops[i].Put? && ops[j].Put? ==> ops[i].at <= ops[j].at
    ensures PlainLookup(ops, key) != "" ==>
              (Lookup(ops, key, now) == PlainLookup(ops, key)
               <==> exists i :: 0 <= i < |ops| && ops[i].Put? && ops[i].key == key && now < ops[i].at + 300.0)
    ensures Lookup(ops, key, now) != PlainLookup(ops, key) ==> Lookup(ops, key, now) == ""
  {
    if PlainLookup(ops, key) != "" {
      var i := LastPutWasPut(ops, key);
      if j :| 0 <= j < |ops| && ops[j].Put? && ops[j].key == key && now < ops[j].at + 300.0 {
        assert Touches(ops[j], key) && j <= i;
      }
    }
  }
}
