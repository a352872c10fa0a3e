/** The server's room table (server/server/wsserver.go). */
module Server {

  /** What the server knows of a room: its identifier, how many managers it has started for it, and whether its four
      channels are closed. */
  class RoomHandle {
    const id: string
    var managers: nat
    var closed: bool

    constructor (id: string)
      ensures this.id == id && managers == 0 && !closed
    {
      this.id, managers, closed := id, 0, false;
    }

    /** Closing a closed channel would panic. */
    method Close()
      requires !closed
      modifies this`closed
      ensures closed
    {
      closed := true;
    }
  }

  class Server {
    var rooms: map<string, RoomHandle>

    /** Rooms are found under their own identifiers, and those that can be found are open. */
    ghost predicate Valid()
      reads this, rooms.Values
    {
      forall id :: id in rooms ==> rooms[id] in rooms.Values && rooms[id].id == id && !rooms[id].closed
    }

    constructor ()
      ensures Valid() && rooms == map[]
    {
      rooms := map[];
    }

    /** A room replaces any other one of the same identifier; nobody will ever close the replaced one. */
    method JoinRoom(r: RoomHandle?)
      requires Valid() && (r != null ==> !r.closed)
      modifies this, r
      ensures Valid()
      ensures r == null ==> rooms == old(rooms)
      ensures r != null ==> rooms == old(rooms)[r.id := r] && r.managers == old(r.managers) + 1 && !r.closed
    {
      if r != null {
        rooms := rooms[r.id := r];
        r.managers := r.managers + 1;
      }
    }

    /** A room is closed when its manager reports its end, unless another room has taken its place or it has been
        closed before: so never twice, and never a room that is still to be found. */
    method KillRoom(r: RoomHandle?)
      requires Valid()
      modifies this, r
      ensures Valid()
      ensures r == null ==> rooms == old(rooms)
      ensures r != null && r.id in old(rooms) && old(rooms)[r.id] == r ==>
                rooms == old(rooms) - {r.id} && !old(r.closed) && r.closed
      ensures r != null && !(r.id in old(rooms) && old(rooms)[r.id] == r) ==>
                rooms == old(rooms) && r.closed == old(r.closed)
      ensures r != null ==> r.managers == old(r.managers)
    {
      if r != null {
        if r.id in rooms && rooms[r.id] == r {
          rooms := rooms - {r.id};
          r.Close();
        }
      }
    }
  }
}
