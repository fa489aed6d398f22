/** Room membership (room.rs). */
module RoomsSpec {
  import opened Wrappers
  import opened Messages

  type PeerId = string
  type RoomId = string

  datatype RoomType = P2P | DeviceStream

  datatype Room = Room(roomType: RoomType, host: Option<PeerId>, remote: Option<PeerId>, consumers: seq<PeerId>)

  type Rooms = map<RoomId, Room>

  predicate Vacant(r: Room) {
    r.host.None? && r.remote.None? && r.consumers == []
  }

  predicate Member(r: Room, p: PeerId) {
    r.host == Some(p) || r.remote == Some(p) || p in r.consumers
  }

  predicate NoneVacant(rooms: Rooms) {
    forall id :: id in rooms ==> !Vacant(rooms[id])
  }

  /** A room created by a host is peer-to-peer; one created by anybody else streams from a device. */
  function NewRoom(p: PeerId, role: PeerRole): Room {
    match role
    case Host => Room(P2P, Some(p), None, [])
    case Remote => Room(DeviceStream, None, Some(p), [])
    case Consumer => Room(DeviceStream, None, None, [p])
  }

  /** None: the slot this role takes is occupied. */
  function Seat(r: Room, p: PeerId, role: PeerRole): Option<Room> {
    match role
    case Host => if r.host.Some? then None else Some(r.(host := Some(p)))
    case Remote =>
      if r.roomType.DeviceStream? then Some(r.(consumers := r.consumers + [p]))
      else if r.remote.Some? then None
      else Some(r.(remote := Some(p)))
    case Consumer => Some(r.(consumers := r.consumers + [p]))
  }

  function JoinRoom(rooms: Rooms, id: RoomId, p: PeerId, role: PeerRole): Option<Rooms> {
    if id !in rooms then Some(rooms[id := NewRoom(p, role)])
    else
      var seated := Seat(rooms[id], p, role);
      if seated.None? then None else Some(rooms[id := seated.value])
  }

  function Without(cs: seq<PeerId>, p: PeerId): (r: seq<PeerId>)
    ensures forall q :: q in r <==> q in cs && q != p
    ensures |r| <= |cs|
  {
    if cs == [] then []
    else
      var rest := Without(cs[1..], p);
      if cs[0] == p then rest else [cs[0]] + rest
  }

  function Evict(r: Room, p: PeerId): (e: Room)
    ensures forall q :: Member(e, q) <==> Member(r, q) && q != p
    ensures e.roomType == r.roomType
  {
    r.(host := if r.host == Some(p) then None else r.host,
       remote := if r.remote == Some(p) then None else r.remote,
       consumers := Without(r.consumers, p))
  }

  function Occupied(rooms: Rooms): (r: Rooms)
    ensures NoneVacant(r)
  {
    map id | id in rooms && !Vacant(rooms[id]) :: rooms[id]
  }

  function LeaveRoom(rooms: Rooms, id: RoomId, p: PeerId): Rooms {
    Occupied(if id in rooms then rooms[id := Evict(rooms[id], p)] else rooms)
  }

  predicate IsDeviceStream(rooms: Rooms, id: RoomId) {
    id in rooms && rooms[id].roomType.DeviceStream?
  }

  function DisconnectConsumers(rooms: Rooms, id: RoomId): Rooms {
    Occupied(if id in rooms then rooms[id := rooms[id].(consumers := [])] else rooms)
  }

  /** Evicted from every room, as the admin's kick does one room at a time. */
  function Kick(rooms: Rooms, p: PeerId): Rooms {
    Occupied(map id | id in rooms :: Evict(rooms[id], p))
  }

  lemma {:induction false} WithoutAbsent(cs: seq<PeerId>, p: PeerId)
    requires p !in cs
    ensures Without(cs, p) == cs
  {
    if cs != [] {
      WithoutAbsent(cs[1..], p);
    }
  }

  lemma EvictAbsent(r: Room, p: PeerId)
    requires !Member(r, p)
    ensures Evict(r, p) == r
  {
    WithoutAbsent(r.consumers, p);
  }

  predicate NoDuplicates(cs: seq<PeerId>) {
    forall i, j :: 0 <= i < j < |cs| ==> cs[i] != cs[j]
  }

  lemma {:induction false} WithoutKeepsDistinct(cs: seq<PeerId>, p: PeerId)
    requires NoDuplicates(cs)
    ensures NoDuplicates(Without(cs, p))
  {
    if cs != [] {
      WithoutKeepsDistinct(cs[1..], p);
      assert forall j :: 0 < j < |cs| ==> cs[0] != cs[j];
      assert cs[0] !in cs[1..];
    }
  }

  // ---- Counting --------------------------------------------------------------------------

  datatype SeatName = HostSeat | RemoteSeat | ConsumerSeat(i: nat)

  function Size(r: Room): nat {
    (if r.host.Some? then 1 else 0) + (if r.remote.Some? then 1 else 0) + |r.consumers|
  }

  function ConsumerSeats(n: nat): (s: set<SeatName>)
    ensures |s| == n
    ensures forall k :: k in s <==> k.ConsumerSeat? && k.i < n
  {
    if n == 0 then {} else ConsumerSeats(n - 1) + {ConsumerSeat(n - 1)}
  }

  function SeatsOf(r: Room): (s: set<SeatName>)
    ensures |s| == Size(r)
  {
    (if r.host.Some? then {HostSeat} else {}) + (if r.remote.Some? then {RemoteSeat} else {})
    + ConsumerSeats(|r.consumers|)
  }

  /** Every occupied seat of the rooms in `ids`. */
  function Seats(rooms: Rooms, ids: set<RoomId>): set<(RoomId, SeatName)>
    requires ids <= rooms.Keys
  {
    set id, k | id in ids && k in SeatsOf(rooms[id]) :: (id, k)
  }

  lemma InSeats(rooms: Rooms, ids: set<RoomId>, x: (RoomId, SeatName))
    requires ids <= rooms.Keys
    ensures x in Seats(rooms, ids) <==> x.0 in ids && x.1 in SeatsOf(rooms[x.0])
  {
    assert x == (x.0, x.1);
  }

  lemma SeatsOfOneMore(rooms: Rooms, ids: set<RoomId>, id: RoomId)
    requires ids <= rooms.Keys && id in rooms && id !in ids
    ensures |Seats(rooms, ids + {id})| == |Seats(rooms, ids)| + Size(rooms[id])
  {
    var here := set k | k in SeatsOf(rooms[id]) :: (id, k);
    PairedWith(id, SeatsOf(rooms[id]));
    forall x: (RoomId, SeatName)
      ensures x in Seats(rooms, ids + {id}) <==> x in Seats(rooms, ids) || x in here
      ensures !(x in Seats(rooms, ids) && x in here)
    {
      InSeats(rooms, ids + {id}, x);
      InSeats(rooms, ids, x);
      assert x in here <==> x.0 == id && x.1 in SeatsOf(rooms[id]);
    }
    assert Seats(rooms, ids + {id}) == Seats(rooms, ids) + here;
  }

  lemma {:induction false} PairedWith(id: RoomId, ks: set<SeatName>)
    ensures |set k | k in ks :: (id, k)| == |ks|
    decreases ks
  {
    if ks != {} {
      var k :| k in ks;
      PairedWith(id, ks - {k});
      assert (set j | j in ks :: (id, j)) == (set j | j in ks - {k} :: (id, j)) + {(id, k)};
    } else {
      assert (set k | k in ks :: (id, k)) == {};
    }
  }
}

module RoomManagement {
  import opened Wrappers
  import opened Messages
  import opened RoomsSpec

  class RoomManager {
    var rooms: Rooms

    predicate Valid()
      reads this
    {
      NoneVacant(rooms)
    }

    constructor ()
      ensures Valid() && rooms == map[]
    {
      rooms := map[];
    }

    method Join(id: RoomId, p: PeerId, role: PeerRole) returns (full: bool)
      requires Valid()
      modifies this
      ensures Valid()
      ensures full == JoinRoom(old(rooms), id, p, role).None?
      ensures full ==> rooms == old(rooms)
      ensures !full ==> rooms == JoinRoom(old(rooms), id, p, role).value
    {
      if id in rooms {
        var room := rooms[id];
        match role {
          case Host =>
            if room.host.Some? {
              return true;
            }
            room := room.(host := Some(p));
          case Remote =>
            if room.roomType.P2P? {
              if room.remote.Some? {
                return true;
              }
              room := room.(remote := Some(p));
            } else {
              room := room.(consumers := room.consumers + [p]);
            }
          case Consumer =>
            room := room.(consumers := room.consumers + [p]);
        }
        rooms := rooms[id := room];
      } else {
        var roomType := if role.Host? then P2P else DeviceStream;
        rooms := rooms[id := Room(roomType,
                                  if role.Host? then Some(p) else None,
                                  if role.Remote? then Some(p) else None,
                                  if role.Consumer? then [p] else [])];
      }
      full := false;
    }

    method Leave(id: RoomId, p: PeerId) returns (gone: bool)
      requires Valid()
      modifies this
      ensures Valid() && rooms == LeaveRoom(old(rooms), id, p) && gone == (id !in rooms)
    {
      if id in rooms {
        var room := rooms[id];
        if room.host == Some(p) {
          room := room.(host := None);
        }
        if room.remote == Some(p) {
          room := room.(remote := None);
        }
        room := room.(consumers := Without(room.consumers, p));
        rooms := rooms[id := room];
      }
      rooms := map r | r in rooms && (rooms[r].host.Some? || rooms[r].remote.Some? || rooms[r].consumers != [])
                 :: rooms[r];
      gone := id !in rooms;
    }

    method Remove(id: RoomId) returns (existed: bool)
      requires Valid()
      modifies this
      ensures Valid() && rooms == old(rooms) - {id} && existed == (id in old(rooms))
    {
      existed := id in rooms;
      rooms := rooms - {id};
    }

    method ClearConsumers(id: RoomId) returns (cleared: seq<PeerId>)
      requires Valid()
      modifies this
      ensures Valid() && rooms == DisconnectConsumers(old(rooms), id)
      ensures cleared == if id in old(rooms) then old(rooms[id].consumers) else []
      ensures id in rooms ==> id in old(rooms) && rooms[id] == old(rooms)[id].(consumers := [])
      ensures id in old(rooms) && (old(rooms)[id].host.Some? || old(rooms)[id].remote.Some?) ==> id in rooms
      ensures forall r :: r != id ==> (r in rooms <==> r in old(rooms)) && (r in rooms ==> rooms[r] == old(rooms)[r])
    {
      cleared := [];
      if id in rooms {
        cleared := rooms[id].consumers;
        rooms := rooms[id := rooms[id].(consumers := [])];
      }
      rooms := map r | r in rooms && (rooms[r].host.Some? || rooms[r].remote.Some? || rooms[r].consumers != [])
                 :: rooms[r];
    }

    /** The admin's kick: a snapshot of the rooms holding the peer, left one after the other. */
    method KickPeer(p: PeerId) returns (found: bool)
      requires Valid()
      modifies this
      ensures Valid() && rooms == Kick(old(rooms), p)
      ensures found <==> exists id :: id in old(rooms) && Member(old(rooms)[id], p)
    {
      ghost var before := rooms;
      var todo := set id | id in rooms && Member(rooms[id], p);
      found := todo != {};
      ghost var all := todo;
      assert rooms == Occupied(KickedFrom(before, all - todo, p));
      while todo != {}
        invariant todo <= all && Valid()
        invariant rooms == Occupied(KickedFrom(before, all - todo, p))
        decreases todo
      {
        var id :| id in todo;
        KickOneMore(before, all - todo, p, id);
        var gone := Leave(id, p);
        todo := todo - {id};
        assert all - todo == (all - (todo + {id})) + {id};
      }
      KickedFromAll(before, all, p);
      assert all - todo == all;
    }

    method ConnectedPeers() returns (n: nat)
      ensures n == |Seats(rooms, rooms.Keys)|
    {
      n := 0;
      var todo := rooms.Keys;
      assert Seats(rooms, rooms.Keys - todo) == {};
      while todo != {}
        invariant todo <= rooms.Keys
        invariant n == |Seats(rooms, rooms.Keys - todo)|
        decreases todo
      {
        var id :| id in todo;
        SeatsOfOneMore(rooms, rooms.Keys - todo, id);
        var room := rooms[id];
        n := n + (if room.host.Some? then 1 else 0) + (if room.remote.Some? then 1 else 0) + |room.consumers|;
        assert rooms.Keys - (todo - {id}) == (rooms.Keys - todo) + {id};
        todo := todo - {id};
      }
      assert rooms.Keys - todo == rooms.Keys;
    }
  }

  /** The rooms after `p` was evicted from those in `ids`. */
  function KickedFrom(rooms: Rooms, ids: set<RoomId>, p: PeerId): Rooms {
    map id | id in rooms :: if id in ids then Evict(rooms[id], p) else rooms[id]
  }

  lemma KickedFromAll(rooms: Rooms, ids: set<RoomId>, p: PeerId)
    requires forall id :: id in rooms && Member(rooms[id], p) ==> id in ids
    ensures Occupied(KickedFrom(rooms, ids, p)) == Kick(rooms, p)
  {
    forall id | id in rooms && id !in ids
      ensures Evict(rooms[id], p) == rooms[id]
    {
      EvictAbsent(rooms[id], p);
    }
    assert KickedFrom(rooms, ids, p) == map id | id in rooms :: Evict(rooms[id], p);
  }

  lemma KickOneMore(rooms: Rooms, ids: set<RoomId>, p: PeerId, id: RoomId)
    requires NoneVacant(rooms) && id in rooms && id !in ids
    ensures LeaveRoom(Occupied(KickedFrom(rooms, ids, p)), id, p) == Occupied(KickedFrom(rooms, ids + {id}, p))
  {
    assert id in Occupied(KickedFrom(rooms, ids, p));
  }
}
