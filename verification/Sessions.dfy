/** The server's session lifecycle (signaling.rs over room.rs and roles.rs): the three join gates,
    the registries, and every way a session or a room can go. */
module SessionsSpec {
  import opened Wrappers
  import opened Messages
  import opened Roles
  import opened RoomsSpec

  /** The maps of the signalling server: peer to device, room to owning device, room to last report. */
  datatype Server = Server(
    rooms: Rooms,
    bindings: map<PeerId, string>,
    owners: map<RoomId, string>,
    status: map<RoomId, Json>)

  datatype JoinOutcome = Joined | Refused(code: nat)

  const NOT_AUTHORIZED := 4031
  const ROOM_FULL := 4002

  function OwnerOf(sv: Server, room: RoomId): Option<string> {
    if room in sv.owners then Some(sv.owners[room]) else None
  }

  predicate GatesRefuse(sv: Server, room: RoomId, role: PeerRole, who: Identity) {
    || (role == Host && HostJoinDenied(who))
    || (role == Remote && !CanControl(who))
    || JoinVehicleRoomDenied(who, OwnerOf(sv, room))
  }

  function Join(sv: Server, p: PeerId, room: RoomId, role: PeerRole, who: Identity): (Server, JoinOutcome) {
    if GatesRefuse(sv, room, role, who) then (sv, Refused(NOT_AUTHORIZED))
    else
      var rooms := JoinRoom(sv.rooms, room, p, role);
      if rooms.None? then (sv, Refused(ROOM_FULL))
      else if who.Device? then
        (sv.(rooms := rooms.value, bindings := sv.bindings[p := who.device], owners := sv.owners[room := who.device]),
         Joined)
      else (sv.(rooms := rooms.value), Joined)
  }

  /** Whether the room is gone is decided before a lost stream host takes the consumers with it. */
  function Disconnect(sv: Server, p: PeerId, room: RoomId): Server {
    var streamHost := IsDeviceStream(sv.rooms, room) && sv.rooms[room].host == Some(p);
    var left := LeaveRoom(sv.rooms, room, p);
    var gone := room !in left;
    Server(if streamHost then DisconnectConsumers(left, room) else left,
           sv.bindings - {p},
           if gone then sv.owners - {room} else sv.owners,
           if gone then sv.status - {room} else sv.status)
  }

  function Report(sv: Server, room: RoomId, role: PeerRole, who: Identity, report: Json): Server {
    if StatusReportDenied(who, role) then sv else sv.(status := sv.status[room := report])
  }

  // ---- What one call does, told without the gates and seats it is built from ----------------

  /** The authorisation matrix at the door, row by row. */
  predicate NotAuthorized(sv: Server, room: RoomId, role: PeerRole, who: Identity) {
    match who
    case Device(d) => room in sv.owners && sv.owners[room] != d
    case Account(_, Viewer, vehicles) =>
      role.Host? || role.Remote? || (room in sv.owners && sv.owners[room] !in vehicles)
    case Account(_, Operator, vehicles) =>
      role.Host? || (room in sv.owners && sv.owners[room] !in vehicles)
    case Account(_, Dispatcher, _) => role.Host? || role.Remote?
    case Account(_, Admin, _) => role.Host?
    case Legacy => false
  }

  predicate SeatTaken(rooms: Rooms, room: RoomId, role: PeerRole) {
    && room in rooms
    && ((role.Host? && rooms[room].host.Some?)
        || (role.Remote? && rooms[room].roomType.P2P? && rooms[room].remote.Some?))
  }

  /** A join is refused with 4031 exactly by the matrix, and otherwise with 4002 exactly for a taken
      seat; refused, it changes nothing. */
  lemma JoinsAreRefusedExactly(sv: Server, p: PeerId, room: RoomId, role: PeerRole, who: Identity)
    ensures var (after, outcome) := Join(sv, p, room, role, who);
            && (outcome == Refused(4031) <==> NotAuthorized(sv, room, role, who))
            && (outcome == Refused(4002) <==> !NotAuthorized(sv, room, role, who) && SeatTaken(sv.rooms, room, role))
            && (outcome.Refused? ==> outcome.code == 4031 || outcome.code == 4002)
            && (outcome.Refused? ==> after == sv)
  {
  }

  /** A join that succeeds binds a device and makes it the room's owner, and otherwise leaves bindings,
      owners and reports alone. */
  lemma JoinsRecordDevicesOnly(sv: Server, p: PeerId, room: RoomId, role: PeerRole, who: Identity)
    requires Join(sv, p, room, role, who).1.Joined?
    ensures var after := Join(sv, p, room, role, who).0;
            && Some(after.rooms) == JoinRoom(sv.rooms, room, p, role)
            && after.status == sv.status
            && (who.Device? ==> after.bindings == sv.bindings[p := who.device] && after.owners == sv.owners[room := who.device])
            && (!who.Device? ==> after.bindings == sv.bindings && after.owners == sv.owners)
  {
  }

  /** A report is stored under the session's room, as it is, if the session is a device or a host. */
  lemma ReportsAreStoredExactly(sv: Server, room: RoomId, role: PeerRole, who: Identity, report: Json)
    ensures Report(sv, room, role, who, report)
            == if who.Device? || role.Host? then sv.(status := sv.status[room := report]) else sv
  {
  }

  /** Losing the host of a streaming room empties its consumers' seats. */
  predicate HostLost(rooms: Rooms, room: RoomId, p: PeerId) {
    room in rooms && rooms[room].roomType.DeviceStream? && rooms[room].host == Some(p)
  }

  predicate HasHost(rooms: Rooms, id: RoomId, q: PeerId) {
    id in rooms && rooms[id].host == Some(q)
  }

  predicate HasRemote(rooms: Rooms, id: RoomId, q: PeerId) {
    id in rooms && rooms[id].remote == Some(q)
  }

  predicate HasConsumer(rooms: Rooms, id: RoomId, q: PeerId) {
    id in rooms && q in rooms[id].consumers
  }

  /** After a disconnect somebody sits in a seat exactly if it sat there before, is not the leaver in
      its room, and is not a consumer of the streaming room that lost its host. */
  lemma DisconnectSeatsExactly(sv: Server, p: PeerId, room: RoomId, id: RoomId, q: PeerId)
    ensures var after := Disconnect(sv, p, room).rooms;
            var leaver := id == room && q == p;
            && (HasHost(after, id, q) <==> HasHost(sv.rooms, id, q) && !leaver)
            && (HasRemote(after, id, q) <==> HasRemote(sv.rooms, id, q) && !leaver)
            && (HasConsumer(after, id, q) <==>
                  HasConsumer(sv.rooms, id, q) && !leaver && !(id == room && HostLost(sv.rooms, room, p)))
            && (id in after ==> id in sv.rooms && after[id].roomType == sv.rooms[id].roomType && !Vacant(after[id]))
    ensures Disconnect(sv, p, room).bindings == sv.bindings - {p}
  {
    if HasConsumer(sv.rooms, id, q) && !(id == room && q == p) && id in LeaveRoom(sv.rooms, room, p) {
      assert q in LeaveRoom(sv.rooms, room, p)[id].consumers;
    }
  }

  /** After a kick the peer sits nowhere, and everybody else where they sat. */
  lemma KickSeatsExactly(rooms: Rooms, p: PeerId, id: RoomId, q: PeerId)
    ensures HasHost(Kick(rooms, p), id, q) <==> HasHost(rooms, id, q) && q != p
    ensures HasRemote(Kick(rooms, p), id, q) <==> HasRemote(rooms, id, q) && q != p
    ensures HasConsumer(Kick(rooms, p), id, q) <==> HasConsumer(rooms, id, q) && q != p
    ensures id in Kick(rooms, p) ==> Kick(rooms, p)[id].roomType == rooms[id].roomType && !Vacant(Kick(rooms, p)[id])
  {
  }

  // ---- Runs ------------------------------------------------------------------------------

  datatype Session = Session(room: RoomId, role: PeerRole, who: Identity)

  /** The server and the sessions whose relay loop is running. An admin's kick or room removal
      changes the rooms only; the session goes on until its socket closes. */
  datatype World = World(server: Server, live: map<PeerId, Session>)

  datatype Step =
    | Joins(p: PeerId, session: Session)
    | Reports(p: PeerId, report: Json)
    | Disconnects(p: PeerId)
    | AdminKicks(p: PeerId)
    | AdminRemoves(room: RoomId)

  const EmptyWorld := World(Server(map[], map[], map[], map[]), map[])

  predicate Enabled(w: World, step: Step) {
    match step
    case Joins(p, _) => p !in w.live
    case Reports(p, _) => p in w.live
    case Disconnects(p) => p in w.live
    case AdminKicks(_) => true
    case AdminRemoves(_) => true
  }

  function Apply(w: World, step: Step): World
    requires Enabled(w, step)
  {
    match step
    case Joins(p, x) =>
      var (sv, outcome) := Join(w.server, p, x.room, x.role, x.who);
      World(sv, if outcome.Joined? then w.live[p := x] else w.live)
    case Reports(p, report) =>
      var x := w.live[p];
      w.(server := Report(w.server, x.room, x.role, x.who, report))
    case Disconnects(p) => World(Disconnect(w.server, p, w.live[p].room), w.live - {p})
    case AdminKicks(p) => w.(server := w.server.(rooms := Kick(w.server.rooms, p)))
    case AdminRemoves(room) => w.(server := w.server.(rooms := w.server.rooms - {room}))
  }

  predicate Reaches(w: World, steps: seq<Step>, v: World)
    decreases |steps|
  {
    if steps == [] then w == v
    else Enabled(w, steps[0]) && Reaches(Apply(w, steps[0]), steps[1..], v)
  }

  // ---- The invariant ---------------------------------------------------------------------

  /** `p` is a live session of room `id` that may sit where `r` seats it. */
  predicate Seated(r: Room, id: RoomId, live: map<PeerId, Session>, p: PeerId) {
    && p in live && live[p].room == id
    && (r.host == Some(p) ==> live[p].role == Host && !HostJoinDenied(live[p].who))
    && (r.remote == Some(p) ==> live[p].role == Remote && CanControl(live[p].who))
    && (p in r.consumers ==> live[p].role != Host)
  }

  ghost predicate MembersLive(rooms: Rooms, live: map<PeerId, Session>) {
    forall id, p :: id in rooms && Member(rooms[id], p) ==> Seated(rooms[id], id, live, p)
  }

  predicate HasLiveSession(live: map<PeerId, Session>, room: RoomId) {
    exists p :: p in live && live[p].room == room
  }

  predicate RegistriesLive(sv: Server, live: map<PeerId, Session>) {
    && (forall room :: room in sv.owners ==> HasLiveSession(live, room))
    && (forall room :: room in sv.status ==> HasLiveSession(live, room))
  }

  ghost predicate BindingsExact(bindings: map<PeerId, string>, live: map<PeerId, Session>) {
    && (forall p :: p in bindings <==> p in live && live[p].who.Device?)
    && (forall p :: p in bindings ==> bindings[p] == live[p].who.device)
  }

  /** A device-bound member's device is the recorded owner of the room. */
  ghost predicate OneTenant(sv: Server, live: map<PeerId, Session>) {
    forall id, p :: id in sv.rooms && Member(sv.rooms[id], p) && p in live && live[p].who.Device? ==>
      OwnerOf(sv, id) == Some(live[p].who.device)
  }

  ghost predicate Inv(w: World) {
    && NoneVacant(w.server.rooms)
    && MembersLive(w.server.rooms, w.live)
    && RegistriesLive(w.server, w.live)
    && BindingsExact(w.server.bindings, w.live)
    && OneTenant(w.server, w.live)
  }

  // ---- Preservation ----------------------------------------------------------------------

  /** Joining seats exactly one more member, in the seat of its role. */
  lemma JoinSeats(rooms: Rooms, id: RoomId, p: PeerId, role: PeerRole)
    requires JoinRoom(rooms, id, p, role).Some? && NoneVacant(rooms)
    requires id in rooms ==> !Member(rooms[id], p)
    ensures var rooms' := JoinRoom(rooms, id, p, role).value;
            && NoneVacant(rooms') && rooms'.Keys == rooms.Keys + {id}
            && (forall r :: r in rooms && r != id ==> rooms'[r] == rooms[r])
            && (forall q :: Member(rooms'[id], q) <==> q == p || (id in rooms && Member(rooms[id], q)))
            && rooms'[id].roomType == (if id in rooms then rooms[id].roomType else if role == Host then P2P else DeviceStream)
            && (rooms'[id].host == Some(p) <==> role == Host)
            && (rooms'[id].remote == Some(p) <==> role == Remote && (id !in rooms || rooms[id].roomType.P2P?))
            && (p in rooms'[id].consumers <==> role == Consumer || (role == Remote && IsDeviceStream(rooms, id)))
            && (id in rooms ==> forall q :: q != p ==>
                  && (rooms'[id].host == Some(q) <==> rooms[id].host == Some(q))
                  && (rooms'[id].remote == Some(q) <==> rooms[id].remote == Some(q))
                  && (q in rooms'[id].consumers <==> q in rooms[id].consumers))
  {
    var rooms' := JoinRoom(rooms, id, p, role).value;
    assert Member(rooms'[id], p);
  }

  lemma JoinKeepsMembers(w: World, p: PeerId, x: Session)
    requires Inv(w) && p !in w.live && Join(w.server, p, x.room, x.role, x.who).1.Joined?
    ensures var v := Apply(w, Joins(p, x)); NoneVacant(v.server.rooms) && MembersLive(v.server.rooms, v.live)
  {
    var v := Apply(w, Joins(p, x));
    assert x.room in w.server.rooms ==> !Member(w.server.rooms[x.room], p);
    JoinSeats(w.server.rooms, x.room, p, x.role);
    forall id, q | id in v.server.rooms && Member(v.server.rooms[id], q)
      ensures Seated(v.server.rooms[id], id, v.live, q)
    {
      if q != p {
        assert Seated(w.server.rooms[id], id, w.live, q);
      }
    }
  }

  lemma JoinKeepsTenant(w: World, p: PeerId, x: Session)
    requires Inv(w) && p !in w.live && Join(w.server, p, x.room, x.role, x.who).1.Joined?
    ensures var v := Apply(w, Joins(p, x)); OneTenant(v.server, v.live)
  {
    var v := Apply(w, Joins(p, x));
    assert x.room in w.server.rooms ==> !Member(w.server.rooms[x.room], p);
    JoinSeats(w.server.rooms, x.room, p, x.role);
    forall id, q | id in v.server.rooms && Member(v.server.rooms[id], q) && q in v.live && v.live[q].who.Device?
      ensures OwnerOf(v.server, id) == Some(v.live[q].who.device)
    {
      if q != p {
        assert Member(w.server.rooms[id], q) && w.live[q] == v.live[q];
      }
    }
  }

  lemma JoinKeepsRegistries(w: World, p: PeerId, x: Session)
    requires Inv(w) && p !in w.live && Join(w.server, p, x.room, x.role, x.who).1.Joined?
    ensures var v := Apply(w, Joins(p, x));
            RegistriesLive(v.server, v.live) && BindingsExact(v.server.bindings, v.live)
  {
    var v := Apply(w, Joins(p, x));
    assert v.live[p] == x;
    forall room | room in v.server.owners || room in v.server.status
      ensures HasLiveSession(v.live, room)
    {
      if room != x.room {
        var q :| q in w.live && w.live[q].room == room;
        assert v.live[q].room == room;
      }
    }
  }

  lemma JoinsKeeps(w: World, p: PeerId, x: Session)
    requires Inv(w) && p !in w.live
    ensures Inv(Apply(w, Joins(p, x)))
  {
    if Join(w.server, p, x.room, x.role, x.who).1.Joined? {
      JoinKeepsMembers(w, p, x);
      JoinKeepsTenant(w, p, x);
      JoinKeepsRegistries(w, p, x);
    }
  }

  /** Whoever sits in `r'` sits in the same seat of `r`. */
  ghost predicate SeatsWithin(r': Room, r: Room) {
    forall q :: Member(r', q) ==>
      && (r'.host == Some(q) ==> r.host == Some(q))
      && (r'.remote == Some(q) ==> r.remote == Some(q))
      && (q in r'.consumers ==> q in r.consumers)
  }

  /** What eviction and clearing have in common: rooms, members and seats only go away. */
  ghost predicate Shrinks(rooms: Rooms, rooms': Rooms) {
    && NoneVacant(rooms')
    && rooms'.Keys <= rooms.Keys
    && forall id :: id in rooms' ==> SeatsWithin(rooms'[id], rooms[id])
  }

  lemma LeaveShrinks(rooms: Rooms, id: RoomId, p: PeerId)
    requires NoneVacant(rooms)
    ensures Shrinks(rooms, LeaveRoom(rooms, id, p))
    ensures id in LeaveRoom(rooms, id, p) ==> !Member(LeaveRoom(rooms, id, p)[id], p)
    ensures forall r :: r in rooms && r != id ==> r in LeaveRoom(rooms, id, p) && LeaveRoom(rooms, id, p)[r] == rooms[r]
  {
  }

  lemma ClearShrinks(rooms: Rooms, id: RoomId)
    requires NoneVacant(rooms)
    ensures Shrinks(rooms, DisconnectConsumers(rooms, id))
  {
  }

  lemma KickShrinks(rooms: Rooms, p: PeerId)
    requires NoneVacant(rooms)
    ensures Shrinks(rooms, Kick(rooms, p))
  {
  }

  lemma ShrinkKeeps(w: World, rooms': Rooms)
    requires Inv(w) && Shrinks(w.server.rooms, rooms')
    ensures Inv(w.(server := w.server.(rooms := rooms')))
  {
    forall id, p | id in rooms' && Member(rooms'[id], p)
      ensures Member(w.server.rooms[id], p) && Seated(rooms'[id], id, w.live, p)
    {
      assert SeatsWithin(rooms'[id], w.server.rooms[id]);
      assert Seated(w.server.rooms[id], id, w.live, p);
    }
  }

  lemma ReportsKeeps(w: World, p: PeerId, report: Json)
    requires Inv(w) && p in w.live
    ensures Inv(Apply(w, Reports(p, report)))
  {
  }

  /** Someone still sits in a room that outlives the leaver, and that someone is a live session of it. */
  lemma RemainingMember(w: World, p: PeerId, room: RoomId) returns (q: PeerId)
    requires Inv(w) && room in LeaveRoom(w.server.rooms, room, p)
    ensures q != p && q in w.live && w.live[q].room == room
  {
    LeaveShrinks(w.server.rooms, room, p);
    var r := LeaveRoom(w.server.rooms, room, p)[room];
    q := if r.host.Some? then r.host.value else if r.remote.Some? then r.remote.value else r.consumers[0];
    assert Member(r, q);
    assert Seated(w.server.rooms[room], room, w.live, q);
  }

  lemma DisconnectKeepsRegistries(w: World, p: PeerId)
    requires Inv(w) && p in w.live
    ensures var v := Apply(w, Disconnects(p)); RegistriesLive(v.server, v.live)
  {
    var v := Apply(w, Disconnects(p));
    var own := w.live[p].room;
    forall room | room in v.server.owners || room in v.server.status
      ensures HasLiveSession(v.live, room)
    {
      var q;
      if room == own {
        q := RemainingMember(w, p, room);
      } else {
        q :| q in w.live && w.live[q].room == room;
      }
      assert q in v.live && v.live[q].room == room;
    }
  }

  lemma WithinTwice(a: Room, b: Room, c: Room)
    requires SeatsWithin(a, b) && SeatsWithin(b, c)
    ensures SeatsWithin(a, c)
  {
    forall q | Member(a, q)
      ensures Member(b, q)
    {
    }
  }

  lemma ShrinksTwice(a: Rooms, b: Rooms, c: Rooms)
    requires Shrinks(a, b) && Shrinks(b, c)
    ensures Shrinks(a, c)
  {
    forall id | id in c
      ensures SeatsWithin(c[id], a[id])
    {
      WithinTwice(c[id], b[id], a[id]);
    }
  }

  lemma DisconnectShrinks(w: World, p: PeerId)
    requires Inv(w) && p in w.live
    ensures Shrinks(LeaveRoom(w.server.rooms, w.live[p].room, p), Apply(w, Disconnects(p)).server.rooms)
    ensures Shrinks(w.server.rooms, Apply(w, Disconnects(p)).server.rooms)
  {
    var room := w.live[p].room;
    var left := LeaveRoom(w.server.rooms, room, p);
    LeaveShrinks(w.server.rooms, room, p);
    ClearShrinks(left, room);
    assert Shrinks(left, left);
    ShrinksTwice(w.server.rooms, left, Apply(w, Disconnects(p)).server.rooms);
  }

  lemma LeaverSitsNowhere(w: World, p: PeerId, id: RoomId)
    requires Inv(w) && p in w.live && id in LeaveRoom(w.server.rooms, w.live[p].room, p)
    ensures !Member(LeaveRoom(w.server.rooms, w.live[p].room, p)[id], p)
  {
    LeaveShrinks(w.server.rooms, w.live[p].room, p);
    assert Member(w.server.rooms[id], p) ==> Seated(w.server.rooms[id], id, w.live, p);
  }

  lemma DisconnectKeepsSeat(w: World, p: PeerId, id: RoomId, q: PeerId)
    requires Inv(w) && p in w.live
    requires id in Apply(w, Disconnects(p)).server.rooms && Member(Apply(w, Disconnects(p)).server.rooms[id], q)
    ensures var v := Apply(w, Disconnects(p));
            && q in v.live && Seated(v.server.rooms[id], id, v.live, q)
            && (v.live[q].who.Device? ==> OwnerOf(v.server, id) == Some(v.live[q].who.device))
  {
    var v := Apply(w, Disconnects(p));
    DisconnectShrinks(w, p);
    LeaverSitsNowhere(w, p, id);
    assert q != p;
    assert Seated(w.server.rooms[id], id, w.live, q);
    assert OwnerOf(v.server, id) == OwnerOf(w.server, id);
  }

  lemma DisconnectsKeeps(w: World, p: PeerId)
    requires Inv(w) && p in w.live
    ensures Inv(Apply(w, Disconnects(p)))
  {
    var v := Apply(w, Disconnects(p));
    DisconnectKeepsRegistries(w, p);
    forall id, q | id in v.server.rooms && Member(v.server.rooms[id], q)
      ensures q in v.live && Seated(v.server.rooms[id], id, v.live, q)
      ensures v.live[q].who.Device? ==> OwnerOf(v.server, id) == Some(v.live[q].who.device)
    {
      DisconnectKeepsSeat(w, p, id, q);
    }
  }

  lemma StepKeeps(w: World, step: Step)
    requires Inv(w) && Enabled(w, step)
    ensures Inv(Apply(w, step))
  {
    match step
    case Joins(p, x) => JoinsKeeps(w, p, x);
    case Reports(p, report) => ReportsKeeps(w, p, report);
    case Disconnects(p) => DisconnectsKeeps(w, p);
    case AdminKicks(p) =>
      KickShrinks(w.server.rooms, p);
      ShrinkKeeps(w, Kick(w.server.rooms, p));
    case AdminRemoves(room) =>
      ShrinkKeeps(w, w.server.rooms - {room});
  }

  lemma {:induction false} RunKeeps(w: World, steps: seq<Step>, v: World)
    requires Inv(w) && Reaches(w, steps, v)
    ensures Inv(v)
    decreases |steps|
  {
    if steps != [] {
      StepKeeps(w, steps[0]);
      RunKeeps(Apply(w, steps[0]), steps[1..], v);
    }
  }

  // ---- What holds in every reachable world -----------------------------------------------

  lemma RegistriesFollowSessions(steps: seq<Step>, w: World)
    requires Reaches(EmptyWorld, steps, w)
    ensures forall id :: id in w.server.rooms ==> exists p :: Member(w.server.rooms[id], p)
    ensures forall id, p :: id in w.server.rooms && Member(w.server.rooms[id], p) ==>
              p in w.live && w.live[p].room == id
    ensures forall room :: room in w.server.owners || room in w.server.status ==> HasLiveSession(w.live, room)
    ensures w.server.bindings == map p | p in w.live && w.live[p].who.Device? :: w.live[p].who.device
  {
    RunKeeps(EmptyWorld, steps, w);
    forall id | id in w.server.rooms
      ensures exists p :: Member(w.server.rooms[id], p)
    {
      var r := w.server.rooms[id];
      assert Member(r, if r.host.Some? then r.host.value else if r.remote.Some? then r.remote.value else r.consumers[0]);
    }
    forall id, p | id in w.server.rooms && Member(w.server.rooms[id], p)
      ensures p in w.live && w.live[p].room == id
    {
      assert Seated(w.server.rooms[id], id, w.live, p);
    }
  }

  /** Somebody other than the leaver sits in the room. */
  ghost predicate OthersRemain(rooms: Rooms, room: RoomId, p: PeerId) {
    room in rooms && exists q :: Member(rooms[room], q) && q != p
  }

  lemma RoomOutlivesLeaver(rooms: Rooms, room: RoomId, p: PeerId)
    ensures room in LeaveRoom(rooms, room, p) <==> OthersRemain(rooms, room, p)
  {
    if room in rooms {
      var r := Evict(rooms[room], p);
      assert OthersRemain(rooms, room, p) ==> exists q :: Member(r, q);
      if !Vacant(r) {
        var q := if r.host.Some? then r.host.value else if r.remote.Some? then r.remote.value else r.consumers[0];
        assert Member(r, q);
      }
    }
  }

  /** A disconnect forgets the owner and the report of the leaver's room if nobody else sat in it
      then, and touches those of no other room. */
  lemma DisconnectForgetsExactly(sv: Server, p: PeerId, room: RoomId, other: RoomId)
    ensures var after := Disconnect(sv, p, room);
            var kept := other != room || OthersRemain(sv.rooms, room, p);
            && OwnerOf(after, other) == (if kept then OwnerOf(sv, other) else None)
            && (other in after.status <==> other in sv.status && kept)
            && (other in after.status ==> after.status[other] == sv.status[other])
  {
    RoomOutlivesLeaver(sv.rooms, room, p);
  }

  /** Once every session has ended nothing is left behind. */
  lemma QuietServerIsEmpty(steps: seq<Step>, w: World)
    requires Reaches(EmptyWorld, steps, w) && w.live == map[]
    ensures w.server == Server(map[], map[], map[], map[])
  {
    RegistriesFollowSessions(steps, w);
    RoomsNeedSessions(steps, w);
  }

  lemma RoomsNeedSessions(steps: seq<Step>, w: World)
    requires Reaches(EmptyWorld, steps, w)
    ensures w.server.rooms != map[] ==> w.live != map[]
  {
    RegistriesFollowSessions(steps, w);
    if id :| id in w.server.rooms {
      var p :| Member(w.server.rooms[id], p);
      assert p in w.live;
    }
  }

  /** All device-bound members of a room belong to one device, the recorded owner. */
  lemma RoomsHaveOneTenant(steps: seq<Step>, w: World, id: RoomId, p: PeerId)
    requires Reaches(EmptyWorld, steps, w)
    requires id in w.server.rooms && Member(w.server.rooms[id], p) && p in w.server.bindings
    ensures OwnerOf(w.server, id) == Some(w.server.bindings[p])
    ensures forall q :: Member(w.server.rooms[id], q) && q in w.server.bindings ==>
              w.server.bindings[q] == w.server.bindings[p]
  {
    RunKeeps(EmptyWorld, steps, w);
    forall q | Member(w.server.rooms[id], q) && q in w.server.bindings
      ensures OwnerOf(w.server, id) == Some(w.server.bindings[q])
    {
      assert q in w.live;
    }
  }

  // ---- One device per room, seated or not -------------------------------------------------

  /** Every live device session's room is owned by its device. */
  ghost predicate OwnersKnown(w: World) {
    forall p :: p in w.live && w.live[p].who.Device? ==>
      OwnerOf(w.server, w.live[p].room) == Some(w.live[p].who.device)
  }

  predicate DeviceLives(w: World, room: RoomId, p: PeerId) {
    p in w.live && w.live[p].room == room && w.live[p].who.Device?
  }

  /** The live device sessions of a room, seated or not, belong to one device. */
  ghost predicate OneLiveDevice(w: World, room: RoomId) {
    forall p, q :: DeviceLives(w, room, p) && DeviceLives(w, room, q) ==> w.live[p].who == w.live[q].who
  }

  /** The disconnect drops the room's owner while an unseated session of a device lives on in it: it
      was kicked, its room removed, or it was cleared with the consumers of a lost host. */
  ghost predicate ForgetsALiveDevice(w: World, p: PeerId)
    requires p in w.live
  {
    && !OthersRemain(w.server.rooms, w.live[p].room, p)
    && exists q :: DeviceLives(w, w.live[p].room, q) && q != p
  }

  lemma DisconnectKeepsOwnersExactly(w: World, p: PeerId)
    requires OwnersKnown(w) && p in w.live
    ensures OwnersKnown(Apply(w, Disconnects(p))) <==> !ForgetsALiveDevice(w, p)
  {
    var v := Apply(w, Disconnects(p));
    var room := w.live[p].room;
    if ForgetsALiveDevice(w, p) {
      var q :| DeviceLives(w, room, q) && q != p;
      DisconnectForgetsExactly(w.server, p, room, room);
      assert q in v.live && v.live[q] == w.live[q] && OwnerOf(v.server, room) == None;
    } else {
      forall q | q in v.live && v.live[q].who.Device?
        ensures OwnerOf(v.server, v.live[q].room) == Some(v.live[q].who.device)
      {
        assert w.live[q] == v.live[q];
        DisconnectForgetsExactly(w.server, p, room, v.live[q].room);
        assert v.live[q].room == room ==> DeviceLives(w, room, q);
      }
    }
  }

  lemma OwnersStayKnownExactly(w: World, step: Step)
    requires OwnersKnown(w) && Enabled(w, step)
    ensures OwnersKnown(Apply(w, step)) <==> !(step.Disconnects? && ForgetsALiveDevice(w, step.p))
  {
    if step.Disconnects? {
      DisconnectKeepsOwnersExactly(w, step.p);
    }
  }

  /** No step of the run forgets a live device. */
  ghost predicate Mindful(w: World, steps: seq<Step>)
    decreases |steps|
  {
    steps == [] ||
    (Enabled(w, steps[0])
     && !(steps[0].Disconnects? && ForgetsALiveDevice(w, steps[0].p))
     && Mindful(Apply(w, steps[0]), steps[1..]))
  }

  lemma {:induction false} MindfulRunKeepsOwners(w: World, steps: seq<Step>, v: World)
    requires Inv(w) && OwnersKnown(w) && Reaches(w, steps, v) && Mindful(w, steps)
    ensures Inv(v) && OwnersKnown(v)
    decreases |steps|
  {
    if steps != [] {
      OwnersStayKnownExactly(w, steps[0]);
      StepKeeps(w, steps[0]);
      MindfulRunKeepsOwners(Apply(w, steps[0]), steps[1..], v);
    }
  }

  /** In mindful runs no two devices are ever live in one room. */
  lemma MindfulRunsHaveOneLiveDevice(steps: seq<Step>, w: World, room: RoomId)
    requires Reaches(EmptyWorld, steps, w) && Mindful(EmptyWorld, steps)
    ensures OneLiveDevice(w, room)
  {
    MindfulRunKeepsOwners(EmptyWorld, steps, w);
    forall p, q | DeviceLives(w, room, p) && DeviceLives(w, room, q)
      ensures w.live[p].who == w.live[q].who
    {
      assert OwnerOf(w.server, room) == Some(w.live[p].who.device) == Some(w.live[q].who.device);
    }
  }

  /** A disconnect at the end of a mindful run opens the room to another device, by a join that finds
      it live with the first one, exactly when it forgets a live device. */
  lemma AnotherDeviceGetsInExactly(steps: seq<Step>, w: World, p: PeerId, newcomer: PeerId, device: string)
    requires Reaches(EmptyWorld, steps, w) && Mindful(EmptyWorld, steps) && p in w.live && newcomer !in w.live
    requires forall q :: q in w.live && w.live[q].who.Device? ==> w.live[q].who.device != device
    ensures var room := w.live[p].room;
            ForgetsALiveDevice(w, p)
            <==> !OneLiveDevice(Apply(Apply(w, Disconnects(p)), Joins(newcomer, Session(room, Host, Device(device)))), room)
  {
    var room := w.live[p].room;
    var x := Session(room, Host, Device(device));
    MindfulRunKeepsOwners(EmptyWorld, steps, w);
    var v := Apply(w, Disconnects(p));
    OwnersStayKnownExactly(w, Disconnects(p));
    DisconnectsKeeps(w, p);
    var u := Apply(v, Joins(newcomer, x));
    DisconnectForgetsExactly(w.server, p, room, room);
    RoomOutlivesLeaver(w.server.rooms, room, p);
    if ForgetsALiveDevice(w, p) {
      var q :| DeviceLives(w, room, q) && q != p;
      assert room !in v.server.rooms && OwnerOf(v.server, room) == None;
      assert DeviceLives(u, room, newcomer) && DeviceLives(u, room, q);
    } else {
      OwnersStayKnownExactly(v, Joins(newcomer, x));
      assert OwnersKnown(u);
      forall a, b | DeviceLives(u, room, a) && DeviceLives(u, room, b)
        ensures u.live[a].who == u.live[b].who
      {
        assert OwnerOf(u.server, room) == Some(u.live[a].who.device) == Some(u.live[b].who.device);
      }
    }
  }

  /** `q` holds the one seat of its room that a session of this role would take. */
  predicate HoldsTheSeat(w: World, id: RoomId, role: PeerRole, q: PeerId) {
    && id in w.server.rooms && q in w.live && w.live[q].room == id && w.live[q].role == role
    && (w.server.rooms[id].host == Some(q)
        || (w.server.rooms[id].remote == Some(q) && w.server.rooms[id].roomType.P2P?))
  }

  /** A room is full for a role exactly when a live session of that role sits in the seat. */
  lemma FullOnlyForALiveSession(steps: seq<Step>, w: World, p: PeerId, id: RoomId, role: PeerRole)
    requires Reaches(EmptyWorld, steps, w)
    ensures JoinRoom(w.server.rooms, id, p, role).None? <==> exists q :: HoldsTheSeat(w, id, role, q)
  {
    RunKeeps(EmptyWorld, steps, w);
    if id in w.server.rooms {
      var r := w.server.rooms[id];
      forall q | r.host == Some(q) || r.remote == Some(q)
        ensures Seated(r, id, w.live, q)
      {
        assert Member(r, q);
      }
      if r.host.Some? && role == Host {
        assert HoldsTheSeat(w, id, role, r.host.value);
      }
      if r.remote.Some? && r.roomType.P2P? && role == Remote {
        assert HoldsTheSeat(w, id, role, r.remote.value);
      }
    }
  }

  // ---- Counting the connected ------------------------------------------------------------

  /** Nobody sits twice in a room. */
  predicate OneSeatEach(r: Room) {
    && NoDuplicates(r.consumers)
    && (r.host.Some? ==> r.host != r.remote && r.host.value !in r.consumers)
    && (r.remote.Some? ==> r.remote.value !in r.consumers)
  }

  predicate SeatsInv(rooms: Rooms) {
    forall id :: id in rooms ==> OneSeatEach(rooms[id])
  }

  lemma EvictKeepsSeats(r: Room, p: PeerId)
    requires OneSeatEach(r)
    ensures OneSeatEach(Evict(r, p))
  {
    WithoutKeepsDistinct(r.consumers, p);
  }

  lemma SeatingKeepsSeats(rooms: Rooms, id: RoomId, p: PeerId, role: PeerRole)
    requires SeatsInv(rooms) && JoinRoom(rooms, id, p, role).Some?
    requires id in rooms ==> !Member(rooms[id], p)
    ensures SeatsInv(JoinRoom(rooms, id, p, role).value)
  {
  }

  lemma LeavingKeepsSeats(rooms: Rooms, id: RoomId, p: PeerId)
    requires SeatsInv(rooms)
    ensures SeatsInv(LeaveRoom(rooms, id, p)) && SeatsInv(DisconnectConsumers(rooms, id))
  {
    if id in rooms {
      EvictKeepsSeats(rooms[id], p);
    }
  }

  lemma StepKeepsSeats(w: World, step: Step)
    requires Inv(w) && SeatsInv(w.server.rooms) && Enabled(w, step)
    ensures SeatsInv(Apply(w, step).server.rooms)
  {
    match step
    case Joins(p, x) =>
      assert x.room in w.server.rooms ==> !Member(w.server.rooms[x.room], p);
      if JoinRoom(w.server.rooms, x.room, p, x.role).Some? {
        SeatingKeepsSeats(w.server.rooms, x.room, p, x.role);
      }
    case Reports(_, _) =>
    case Disconnects(p) =>
      LeavingKeepsSeats(w.server.rooms, w.live[p].room, p);
      LeavingKeepsSeats(LeaveRoom(w.server.rooms, w.live[p].room, p), w.live[p].room, p);
    case AdminKicks(p) =>
      forall id | id in w.server.rooms
        ensures OneSeatEach(Evict(w.server.rooms[id], p))
      {
        EvictKeepsSeats(w.server.rooms[id], p);
      }
    case AdminRemoves(_) =>
  }

  lemma {:induction false} RunKeepsSeats(w: World, steps: seq<Step>, v: World)
    requires Inv(w) && SeatsInv(w.server.rooms) && Reaches(w, steps, v)
    ensures Inv(v) && SeatsInv(v.server.rooms)
    decreases |steps|
  {
    if steps != [] {
      StepKeeps(w, steps[0]);
      StepKeepsSeats(w, steps[0]);
      RunKeepsSeats(Apply(w, steps[0]), steps[1..], v);
    }
  }

  function Holder(rooms: Rooms, x: (RoomId, SeatName)): (p: PeerId)
    requires x.0 in rooms && x.1 in SeatsOf(rooms[x.0])
    ensures Member(rooms[x.0], p)
  {
    match x.1
    case HostSeat => rooms[x.0].host.value
    case RemoteSeat => rooms[x.0].remote.value
    case ConsumerSeat(i) => rooms[x.0].consumers[i]
  }

  lemma HoldersDiffer(w: World, x: (RoomId, SeatName), y: (RoomId, SeatName))
    requires MembersLive(w.server.rooms, w.live) && SeatsInv(w.server.rooms)
    requires x.0 in w.server.rooms && x.1 in SeatsOf(w.server.rooms[x.0])
    requires y.0 in w.server.rooms && y.1 in SeatsOf(w.server.rooms[y.0])
    requires Holder(w.server.rooms, x) == Holder(w.server.rooms, y)
    ensures x == y
  {
    var p := Holder(w.server.rooms, x);
    assert Seated(w.server.rooms[x.0], x.0, w.live, p) && Seated(w.server.rooms[y.0], y.0, w.live, p);
    assert OneSeatEach(w.server.rooms[x.0]);
  }

  lemma {:induction false} InjectiveValues<A, B>(m: map<A, B>)
    requires forall x, y :: x in m && y in m && m[x] == m[y] ==> x == y
    ensures |m.Values| == |m|
    decreases |m|
  {
    if m == map[] {
      assert m.Values == {};
    } else {
      var x :| x in m;
      var rest := m - {x};
      InjectiveValues(rest);
      forall v | v in m.Values
        ensures v in rest.Values + {m[x]}
      {
        var y :| y in m && m[y] == v;
        assert y != x ==> rest[y] == v;
      }
      assert m.Values == rest.Values + {m[x]};
      assert m.Keys == rest.Keys + {x};
    }
  }

  /** The live sessions that hold a seat in their room: not those kicked, cleared or in a removed room. */
  function SeatedSessions(w: World): set<PeerId> {
    set p | p in w.live && w.live[p].room in w.server.rooms && Member(w.server.rooms[w.live[p].room], p)
  }

  lemma SeatOf(w: World, p: PeerId) returns (x: (RoomId, SeatName))
    requires p in SeatedSessions(w)
    ensures x.0 in w.server.rooms && x.1 in SeatsOf(w.server.rooms[x.0]) && Holder(w.server.rooms, x) == p
  {
    var r := w.server.rooms[w.live[p].room];
    var seat;
    if r.host == Some(p) {
      seat := HostSeat;
    } else if r.remote == Some(p) {
      seat := RemoteSeat;
    } else {
      var i :| 0 <= i < |r.consumers| && r.consumers[i] == p;
      seat := ConsumerSeat(i);
    }
    x := (w.live[p].room, seat);
  }

  /** Who sits where. */
  function Holders(rooms: Rooms): map<(RoomId, SeatName), PeerId> {
    map x | x in Seats(rooms, rooms.Keys) :: Holder(rooms, x)
  }

  lemma HoldersAreSeated(w: World, p: PeerId)
    requires MembersLive(w.server.rooms, w.live)
    ensures p in Holders(w.server.rooms).Values <==> p in SeatedSessions(w)
  {
    var rooms, holders := w.server.rooms, Holders(w.server.rooms);
    if p in holders.Values {
      var x :| x in holders && holders[x] == p;
      assert Seated(rooms[x.0], x.0, w.live, p);
    }
    if p in SeatedSessions(w) {
      var x := SeatOf(w, p);
      InSeats(rooms, rooms.Keys, x);
      assert holders[x] == p;
    }
  }

  /** The seat count the server reports is the number of live sessions that hold a seat, one each. */
  lemma SeatCountIsSeatedSessions(steps: seq<Step>, w: World)
    requires Reaches(EmptyWorld, steps, w)
    ensures |Seats(w.server.rooms, w.server.rooms.Keys)| == |SeatedSessions(w)| <= |w.live|
  {
    RunKeepsSeats(EmptyWorld, steps, w);
    var holders := Holders(w.server.rooms);
    assert holders.Keys == Seats(w.server.rooms, w.server.rooms.Keys);
    forall x, y | x in holders && y in holders && holders[x] == holders[y]
      ensures x == y
    {
      HoldersDiffer(w, x, y);
    }
    InjectiveValues(holders);
    assert holders.Values == SeatedSessions(w) by {
      forall p {
        HoldersAreSeated(w, p);
      }
    }
    Subset(SeatedSessions(w), w.live.Keys);
  }

  lemma {:induction false} Subset<T>(a: set<T>, b: set<T>)
    requires a <= b
    ensures |a| <= |b|
    decreases b
  {
    if x :| x in b {
      Subset(a - {x}, b - {x});
    }
  }

  /** No account ever holds the host slot, and only an operator's or admin's the remote slot. */
  lemma SlotsRespectTheMatrix(steps: seq<Step>, w: World, id: RoomId)
    requires Reaches(EmptyWorld, steps, w) && id in w.server.rooms
    ensures w.server.rooms[id].host.Some? ==>
              && w.server.rooms[id].host.value in w.live
              && !w.live[w.server.rooms[id].host.value].who.Account?
    ensures w.server.rooms[id].remote.Some? ==>
              && w.server.rooms[id].remote.value in w.live
              && var who := w.live[w.server.rooms[id].remote.value].who;
                 who.Account? ==> who.cockpit.Operator? || who.cockpit.Admin?
  {
    RunKeeps(EmptyWorld, steps, w);
    var r := w.server.rooms[id];
    if r.host.Some? {
      assert Member(r, r.host.value);
    }
    if r.remote.Some? {
      assert Member(r, r.remote.value);
    }
  }
}

module Sessions {
  import opened Wrappers
  import opened Messages
  import opened Roles
  import opened RoomsSpec
  import opened RoomManagement
  import opened SessionsSpec

  /** The shared maps of `SignalingServer`; a session's room, role and identity are what its
      handler holds in local variables. */
  class SignalingServer {
    const roomManager: RoomManager
    var deviceBindings: map<PeerId, string>
    var roomOwners: map<RoomId, string>
    var statusRegistry: map<RoomId, Json>

    function View(): Server
      reads this, roomManager
    {
      Server(roomManager.rooms, deviceBindings, roomOwners, statusRegistry)
    }

    constructor ()
      ensures fresh(roomManager) && roomManager.Valid() && View() == EmptyWorld.server
    {
      roomManager := new RoomManager();
      deviceBindings, roomOwners, statusRegistry := map[], map[], map[];
    }

    method JoinRoom(p: PeerId, room: RoomId, role: PeerRole, who: Identity) returns (outcome: JoinOutcome)
      requires roomManager.Valid()
      modifies this, roomManager
      ensures roomManager.Valid()
      ensures (View(), outcome) == Join(old(View()), p, room, role, who)
    {
      if role == Host && HostJoinDenied(who) {
        return Refused(NOT_AUTHORIZED);
      }
      if role == Remote && !CanControl(who) {
        return Refused(NOT_AUTHORIZED);
      }
      if room in roomOwners {
        if JoinVehicleRoomDenied(who, Some(roomOwners[room])) {
          return Refused(NOT_AUTHORIZED);
        }
      }
      var full := roomManager.Join(room, p, role);
      if full {
        return Refused(ROOM_FULL);
      }
      if who.Device? {
        deviceBindings := deviceBindings[p := who.device];
        roomOwners := roomOwners[room := who.device];
      }
      outcome := Joined;
    }

    method StoreReport(room: RoomId, role: PeerRole, who: Identity, report: Json) returns (denied: bool)
      modifies this`statusRegistry
      ensures View() == Report(old(View()), room, role, who, report)
      ensures denied == StatusReportDenied(who, role)
    {
      denied := StatusReportDenied(who, role);
      if !denied {
        statusRegistry := statusRegistry[room := report];
      }
    }

    method EndSession(p: PeerId, room: RoomId)
      requires roomManager.Valid()
      modifies this, roomManager
      ensures roomManager.Valid()
      ensures View() == Disconnect(old(View()), p, room)
    {
      var rooms := roomManager.rooms;
      var streamHost := IsDeviceStream(rooms, room) && rooms[room].host == Some(p);
      var gone := roomManager.Leave(room, p);
      deviceBindings := deviceBindings - {p};
      if streamHost {
        var cleared := roomManager.ClearConsumers(room);
      }
      if gone {
        statusRegistry := statusRegistry - {room};
        roomOwners := roomOwners - {room};
      }
    }
  }
}
