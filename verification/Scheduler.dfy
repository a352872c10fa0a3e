/** Creating rooms through the scheduler (server/schedule/scheduler.go) and joining them through the reverse proxy
    (server/schedule/revproxy.go). */
module Scheduler {
  import opened Options
  import opened Storage
  import opened Orchestrator

  const STATUS_OK := 200

  datatype URL = URL(scheme: string, host: string, path: string, query: string, fragment: string)

  datatype Request = Request(url: URL, userAgent: Option<string>)

  /** The body of a response: whether reading and closing it succeed, its bytes, and the room that they announce if
      they decode. */
  datatype Body = Body(readable: bool, closable: bool, bytes: string, room: Option<string>)

  datatype Response = Response(status: int, body: Body, host: string)

  datatype Error = ReadFailed | CloseFailed | BadBody

  // Joining

  /** Where the proxy sends a request for room `rid`, if the registry's answer for the room is `target`. */
  function Routed(url: URL, rid: string, target: string): (r: Option<URL>)
    ensures r.Some? <==> rid != "" && target != ""
    ensures r.Some? ==> r.value == URL("ws", target, url.path, url.query, url.fragment)
  {
    if rid == "" || target == "" then None
    else Some(url.(scheme := "ws", host := target))
  }

  class LoadBalancedReverseProxy {
    const reg: RedisBackend

    constructor (reg: RedisBackend)
      ensures this.reg == reg
    {
      this.reg := reg;
    }

    /** The registry is asked only for requests that name a room; an error counts as an empty answer. */
    method ProxyBackend(url: URL, rid: string, now: real) returns (backend: Option<URL>)
      requires reg.Valid()
      ensures backend == Routed(url, rid, Lookup(reg.ops, rid, now))
    {
      var target, ok := "", true;
      if rid != "" {
        target, ok := reg.Get(rid, now);
      }
      if target == "" {
        return None;
      }
      var u := URL("ws", "example.com:8080", "", "", "");
      u := u.(host := target);
      u := u.(fragment := url.fragment);
      u := u.(path := url.path);
      u := u.(query := url.query);
      return Some(u);
    }
  }

  // Creating

  class Scheduler {
    const store: RedisBackend
    var info: ScheduleInfo

    /** The hosts of the current pool, in its order. */
    var pool: seq<string>

    /** The pool offers exactly the backends of the schedule, each of them once. */
    ghost predicate Valid()
      reads this, store
    {
      && store.Valid()
      && multiset(pool) == multiset(info.backends.Keys)
    }

    /** Before the first schedule arrives the pool holds one empty host. */
    constructor (store: RedisBackend)
      ensures this.store == store && pool == [""] && info == ScheduleInfo(map[], BALANCE)
    {
      this.store, info, pool := store, ScheduleInfo(map[], BALANCE), [""];
    }

    method RebuildPool()
      modifies this`pool
      ensures multiset(pool) == multiset(info.backends.Keys)
    {
      var hosts: seq<string> := [];
      var rest := info.backends.Keys;
      while rest != {}
        invariant rest <= info.backends.Keys
        invariant multiset(hosts) + multiset(rest) == multiset(info.backends.Keys)
        decreases |rest|
      {
        var h :| h in rest;
        assert multiset(rest) == multiset(rest - {h}) + multiset{h};
        rest := rest - {h};
        hosts := hosts + [h];
      }
      pool := hosts;
    }

    /** A schedule arrives; one that does not decode counts as an empty one. */
    method UpdateSchedule(message: Option<ScheduleInfo>)
      requires store.Valid()
      modifies this
      ensures Valid()
      ensures info == if message.Some? then message.value else ScheduleInfo(map[], 0)
    {
      info := if message.Some? then message.value else ScheduleInfo(map[], BALANCE);
      RebuildPool();
    }

    /** The pool decides which of its hosts is next. */
    method NextBackend(choice: nat) returns (host: string)
      requires choice < |pool|
      ensures host == pool[choice] && (Valid() ==> host in info.backends)
    {
      host := pool[choice];
      if multiset(pool) == multiset(info.backends.Keys) {
        assert host in multiset(pool);
      }
    }

    /** A request to create a room goes to a backend that the schedule names; only its address changes. */
    method ProxyDirector(req: Request, choice: nat) returns (out: Request)
      requires choice < |pool|
      ensures Valid() ==> out.url.host in info.backends
      ensures out.url.(scheme := req.url.scheme, host := req.url.host) == req.url
      ensures out.url.scheme == "http" && out.url.host == pool[choice]
      ensures out.userAgent == Some(if req.userAgent.Some? then req.userAgent.value else "")
    {
      var host := NextBackend(choice);
      out := req.(url := req.url.(scheme := "http", host := host));
      if out.userAgent.None? {
        out := out.(userAgent := Some(""));
      }
    }

    /** The response of a backend that has created a room binds the room to this backend and is passed on as it is:
        from then on the proxy sends everybody who asks for the room there, for five minutes. Any other successful
        response is an error; a response that is no success is passed on. */
    method RoomRegister(rsp: Response, now: real) returns (out: Option<Response>, error: Option<Error>)
      requires store.Valid()
      modifies store
      ensures store.Valid()
      ensures out.Some? <==> error.None?
      ensures out.Some? ==> out.value.status == rsp.status && out.value.host == rsp.host
                            && out.value.body.bytes == rsp.body.bytes
      ensures error == if rsp.status != 200 || (rsp.body.readable && rsp.body.closable && rsp.body.room.Some?) then None
                       else if !rsp.body.readable then Some(ReadFailed)
                       else if !rsp.body.closable then Some(CloseFailed)
                       else Some(BadBody)
      ensures store.ops == old(store.ops) + if error.None? && rsp.status == 200
                                            then [Put(rsp.body.room.value, rsp.host, now)]
                                            else []
      ensures rsp.status == 200 && error.None? && rsp.body.room.value != "" && rsp.host != "" ==>
                forall url: URL, later: real ::
                  Routed(url, rsp.body.room.value, Lookup(store.ops, rsp.body.room.value, later))
                  == if later < now + 300.0 then Some(URL("ws", rsp.host, url.path, url.query, url.fragment)) else None
    {
      if rsp.status == STATUS_OK {
        if !rsp.body.readable {
          return None, Some(ReadFailed);
        }
        if !rsp.body.closable {
          return None, Some(CloseFailed);
        }
        if rsp.body.room.None? {
          return None, Some(BadBody);
        }
        store.Set(rsp.body.room.value, rsp.host, now);
        if rsp.body.room.value != "" && rsp.host != "" {
          assert old(store.ops) + [Put(rsp.body.room.value, rsp.host, now)] + [] == store.ops;
          forall url: URL, later: real
            ensures Routed(url, rsp.body.room.value, Lookup(store.ops, rsp.body.room.value, later))
                    == if later < now + 300.0
                       then Some(URL("ws", rsp.host, url.path, url.query, url.fragment)) else None
          {
            CreatedRoomIsFound(old(store.ops), rsp.host, rsp.body.room.value, now, [], url, later);
          }
        }
        return Some(rsp.(body := Body(true, true, rsp.body.bytes, rsp.body.room))), None;
      }
      return Some(rsp), None;
    }
  }

  /** Creating a room and then joining it: for five minutes the proxy sends everybody who asks for the room to the
      backend that the scheduler has chosen for it, unless the room is bound again; and then it sends them nowhere. */
  lemma {:induction false} CreatedRoomIsFound(ops: seq<Op>, host: string, room: string, at: real, later: seq<Op>,
                                              url: URL, now: real)
    requires room != "" && host != "" && forall i :: 0 <= i < |later| ==> !Touches(later[i], room)
    ensures Routed(url, room, Lookup(ops + [Put(room, host, at)] + later, room, now))
            == if now < at + 300.0 then Some(URL("ws", host, url.path, url.query, url.fragment)) else None
  {
    LastPutSnoc(ops, Put(room, host, at), room);
    LastPutConcat(ops + [Put(room, host, at)], later, room);
  }
}
