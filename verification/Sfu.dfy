/** The media registries of sfu.rs. Transports and producers are fresh ids: here the position, in
    the history of operations, of the operation that stored them. Creating a transport awaits the
    media worker twice with no lock held, so it is three operations: looking the room up, inserting
    a room if there was none, and storing the transport. */
module SfuSpec {
  import opened Wrappers
  import opened Messages

  type Id = nat
  type CallId = nat

  datatype SfuPeer = SfuPeer(
    sendTransports: seq<Id>,
    recvTransports: seq<Id>,
    producers: seq<Id>,
    producerTransports: map<Id, Id>,
    dataProducers: seq<Id>,
    dataProducerTransports: map<Id, Id>)

  type SfuRooms = map<string, map<string, SfuPeer>>

  const NewPeer := SfuPeer([], [], [], map[], [], map[])

  /** A named transport if registered, and without a name the newest. */
  function Find(transports: seq<Id>, name: Option<Id>): Option<Id> {
    match name
    case Some(id) => if id in transports then Some(id) else None
    case None => if transports == [] then None else Some(transports[|transports| - 1])
  }

  function PeerAt(rooms: SfuRooms, room: string, peer: string): Option<SfuPeer> {
    if room in rooms && peer in rooms[room] then Some(rooms[room][peer]) else None
  }

  function Put(rooms: SfuRooms, room: string, peer: string, p: SfuPeer): SfuRooms
    requires room in rooms
  {
    rooms[room := rooms[room][peer := p]]
  }

  /** A transport whose room has gone meanwhile is dropped. */
  function StoreTransport(rooms: SfuRooms, room: string, peer: string, dir: TransportDirection, id: Id): SfuRooms {
    if room !in rooms then rooms
    else
      var p := if peer in rooms[room] then rooms[room][peer] else NewPeer;
      Put(rooms, room, peer,
          match dir
          case Send => p.(sendTransports := p.sendTransports + [id])
          case Recv => p.(recvTransports := p.recvTransports + [id]))
  }

  datatype Media = Track | DataChannel

  /** None when the room, the peer or the transport is unknown. */
  function CreateProducer(rooms: SfuRooms, room: string, peer: string, media: Media, name: Option<Id>, id: Id)
    : Option<SfuRooms>
  {
    var p := PeerAt(rooms, room, peer);
    if p.None? then None
    else
      var bound := Find(p.value.sendTransports, name);
      if bound.None? then None
      else Some(Put(rooms, room, peer,
                    match media
                    case Track => p.value.(producers := p.value.producers + [id],
                                           producerTransports := p.value.producerTransports[id := bound.value])
                    case DataChannel => p.value.(dataProducers := p.value.dataProducers + [id],
                                                 dataProducerTransports := p.value.dataProducerTransports[id := bound.value])))
  }

  /** Connecting looks the id up among the peer's transports of both directions. */
  predicate CanConnect(rooms: SfuRooms, room: string, peer: string, id: Id) {
    var p := PeerAt(rooms, room, peer);
    p.Some? && (id in p.value.sendTransports || id in p.value.recvTransports)
  }

  predicate Vacant(rooms: SfuRooms, room: string) {
    room in rooms && rooms[room] == map[]
  }

  /** The room itself, if this was its last peer, goes in a second step. */
  function RemovePeer(rooms: SfuRooms, room: string, peer: string): SfuRooms {
    if room in rooms then rooms[room := rooms[room] - {peer}] else rooms
  }

  function BindingsOf(p: SfuPeer, media: Media): map<Id, Id> {
    if media.Track? then p.producerTransports else p.dataProducerTransports
  }

  predicate BoundTo(rooms: SfuRooms, room: string, peer: string, media: Media, producer: Id, transport: Id) {
    var p := PeerAt(rooms, room, peer);
    p.Some? && producer in BindingsOf(p.value, media) && BindingsOf(p.value, media)[producer] == transport
  }

  // ---- Histories -------------------------------------------------------------------------

  /** `Inserts` happens without looking again whether the room is still absent, `EmptiedCloses` (the
      end of a peer's removal) without looking again whether the room is still empty. */
  datatype Op =
    | LooksUp(call: CallId, room: string, peer: string, dir: TransportDirection)
    | Inserts(call: CallId, room: string)
    | Stores(call: CallId, room: string, peer: string, dir: TransportDirection)
    | Abandons(call: CallId)
    | Produces(room: string, peer: string, media: Media, name: Option<Id>)
    | PeerLeaves(room: string, peer: string)
    | EmptiedCloses(room: string)
    | RoomCloses(room: string)

  function After(rooms: SfuRooms, op: Op, id: Id): SfuRooms {
    match op
    case LooksUp(_, _, _, _) => rooms
    case Inserts(_, room) => rooms[room := map[]]
    case Stores(_, room, peer, dir) => StoreTransport(rooms, room, peer, dir, id)
    case Abandons(_) => rooms
    case Produces(room, peer, media, name) =>
      var made := CreateProducer(rooms, room, peer, media, name, id);
      if made.Some? then made.value else rooms
    case PeerLeaves(room, peer) => RemovePeer(rooms, room, peer)
    case EmptiedCloses(room) => rooms - {room}
    case RoomCloses(room) => rooms - {room}
  }

  function Exec(ops: seq<Op>): SfuRooms {
    if ops == [] then map[]
    else After(Exec(ops[..|ops| - 1]), ops[|ops| - 1], |ops| - 1)
  }

  /** How far a call of `create_webrtc_transport` has come. */
  datatype Phase =
    | Unused
    | Routing(room: string, peer: string, dir: TransportDirection)
    | Creating(room: string, peer: string, dir: TransportDirection)
    | Finished

  function PhaseAfter(rooms: SfuRooms, op: Op, p: Phase, call: CallId): Phase {
    if !(op.LooksUp? || op.Inserts? || op.Stores? || op.Abandons?) || op.call != call then p
    else if op.LooksUp? then
      (if op.room in rooms then Creating(op.room, op.peer, op.dir) else Routing(op.room, op.peer, op.dir))
    else if op.Inserts? then
      (if p.Routing? then Creating(p.room, p.peer, p.dir) else p)
    else Finished
  }

  function PhaseOf(ops: seq<Op>, call: CallId): Phase {
    if ops == [] then Unused
    else
      var init, last := ops[..|ops| - 1], ops[|ops| - 1];
      PhaseAfter(Exec(init), last, PhaseOf(init, call), call)
  }

  /** The removal of this peer leaves its room empty, so that it will be closed. */
  predicate Empties(rooms: SfuRooms, op: Op, room: string) {
    && op.PeerLeaves? && op.room == room && PeerAt(rooms, room, op.peer).Some?
    && Vacant(RemovePeer(rooms, room, op.peer), room)
  }

  /** Removals that found the room empty and have not closed it yet. */
  function Closings(ops: seq<Op>, room: string): int {
    if ops == [] then 0
    else
      var init, last := ops[..|ops| - 1], ops[|ops| - 1];
      ClosingsAfter(Exec(init), last, Closings(init, room), room)
  }

  function ClosingsAfter(rooms: SfuRooms, op: Op, n: int, room: string): int {
    if Empties(rooms, op, room) then n + 1 else if op == EmptiedCloses(room) then n - 1 else n
  }

  predicate Enabled(ops: seq<Op>, op: Op) {
    match op
    case LooksUp(call, _, _, _) => PhaseOf(ops, call).Unused?
    case Inserts(call, room) => PhaseOf(ops, call).Routing? && PhaseOf(ops, call).room == room
    case Stores(call, room, peer, dir) => PhaseOf(ops, call) == Creating(room, peer, dir)
    case Abandons(call) => PhaseOf(ops, call).Routing? || PhaseOf(ops, call).Creating?
    case Produces(_, _, _, _) => true
    case PeerLeaves(_, _) => true
    case EmptiedCloses(room) => Closings(ops, room) > 0
    case RoomCloses(_) => true
  }

  predicate Run(ops: seq<Op>) {
    ops == [] || (Run(ops[..|ops| - 1]) && Enabled(ops[..|ops| - 1], ops[|ops| - 1]))
  }

  /** The operation takes this peer, or the whole room, away. */
  predicate Ends(op: Op, room: string, peer: string) {
    op == PeerLeaves(room, peer) || op == RoomCloses(room)
  }

  /** The operation replaces or removes the room under whoever is in it. */
  predicate Wipes(op: Op, room: string) {
    (op.Inserts? && op.room == room) || op == EmptiedCloses(room)
  }

  predicate Stays(ops: seq<Op>, room: string, peer: string) {
    forall i :: 0 <= i < |ops| ==> !Ends(ops[i], room, peer)
  }

  predicate NotWiped(ops: seq<Op>, room: string) {
    forall i :: 0 <= i < |ops| ==> !Wipes(ops[i], room)
  }

  /** The room was inserted, and not closed since. */
  predicate Open(ops: seq<Op>, room: string) {
    ops != [] &&
    var last := ops[|ops| - 1];
    || (last.Inserts? && last.room == room)
    || (last != EmptiedCloses(room) && last != RoomCloses(room) && Open(ops[..|ops| - 1], room))
  }

  /** Whether this operation, coming after `ops`, registers a transport of the peer. */
  predicate Registers(ops: seq<Op>, op: Op, room: string, peer: string) {
    op.Stores? && op.room == room && op.peer == peer && Open(ops, room)
  }

  /** The latest send transport registered for the peer and neither taken away nor wiped since. */
  function NewestSend(ops: seq<Op>, room: string, peer: string): Option<Id> {
    if ops == [] then None
    else
      var init, last := ops[..|ops| - 1], ops[|ops| - 1];
      if Registers(init, last, room, peer) && last.dir == Send then Some(|ops| - 1)
      else if Ends(last, room, peer) || Wipes(last, room) then None
      else NewestSend(init, room, peer)
  }

  /** Transport `id` was registered for the peer, in either direction, and has not been lost since. */
  predicate CreatedFor(ops: seq<Op>, room: string, peer: string, id: Id) {
    && id < |ops| && Registers(ops[..id], ops[id], room, peer)
    && Stays(ops[id + 1..], room, peer) && NotWiped(ops[id + 1..], room)
  }

  predicate SentFor(ops: seq<Op>, room: string, peer: string, id: Id) {
    CreatedFor(ops, room, peer, id) && ops[id].dir == Send
  }

  lemma {:induction false} ExecStep(ops: seq<Op>, op: Op)
    ensures Exec(ops + [op]) == After(Exec(ops), op, |ops|)
  {
    assert (ops + [op])[..|ops|] == ops;
  }

  /** One more enabled operation, and the phase it leaves its call in. */
  lemma {:induction false} Take(ops: seq<Op>, op: Op) returns (all: seq<Op>)
    requires Run(ops) && Enabled(ops, op)
    ensures all == ops + [op] && Run(all) && Exec(all) == After(Exec(ops), op, |ops|)
    ensures forall call :: PhaseOf(all, call) == PhaseAfter(Exec(ops), op, PhaseOf(ops, call), call)
    ensures forall room :: Closings(all, room) == ClosingsAfter(Exec(ops), op, Closings(ops, room), room)
  {
    all := ops + [op];
    assert all[..|all| - 1] == ops;
  }

  lemma {:induction false} OpenIsPresent(ops: seq<Op>, room: string)
    ensures room in Exec(ops) <==> Open(ops, room)
    decreases |ops|
  {
    if ops != [] {
      OpenIsPresent(ops[..|ops| - 1], room);
    }
  }

  function SendsOf(rooms: SfuRooms, room: string, peer: string): seq<Id> {
    var p := PeerAt(rooms, room, peer);
    if p.Some? then p.value.sendTransports else []
  }

  function RecvsOf(rooms: SfuRooms, room: string, peer: string): seq<Id> {
    var p := PeerAt(rooms, room, peer);
    if p.Some? then p.value.recvTransports else []
  }

  /** One operation on one peer's transports: appended, lost with the peer or the room, or untouched. */
  lemma TransportsAfter(rooms: SfuRooms, op: Op, id: Id, room: string, peer: string)
    ensures SendsOf(After(rooms, op, id), room, peer) ==
            if op.Stores? && op.room == room && op.peer == peer && room in rooms && op.dir == Send
            then SendsOf(rooms, room, peer) + [id]
            else if Ends(op, room, peer) || Wipes(op, room) then []
            else SendsOf(rooms, room, peer)
    ensures RecvsOf(After(rooms, op, id), room, peer) ==
            if op.Stores? && op.room == room && op.peer == peer && room in rooms && op.dir == Recv
            then RecvsOf(rooms, room, peer) + [id]
            else if Ends(op, room, peer) || Wipes(op, room) then []
            else RecvsOf(rooms, room, peer)
  {
  }

  lemma StaysGrows(ops: seq<Op>, op: Op, room: string, peer: string)
    ensures Stays(ops + [op], room, peer) <==> Stays(ops, room, peer) && !Ends(op, room, peer)
    ensures NotWiped(ops + [op], room) <==> NotWiped(ops, room) && !Wipes(op, room)
  {
    var all := ops + [op];
    assert all[|ops|] == op;
    forall i | 0 <= i < |ops|
      ensures all[i] == ops[i]
    {
    }
    if Stays(all, room, peer) {
      forall i | 0 <= i < |ops|
        ensures !Ends(ops[i], room, peer)
      {
        assert !Ends(all[i], room, peer);
      }
    }
    if NotWiped(all, room) {
      forall i | 0 <= i < |ops|
        ensures !Wipes(ops[i], room)
      {
        assert !Wipes(all[i], room);
      }
    }
  }

  lemma {:induction false} HistoryGrows(ops: seq<Op>, op: Op, room: string, peer: string, id: Id)
    ensures CreatedFor(ops + [op], room, peer, id)
            <==> (if id < |ops| then CreatedFor(ops, room, peer, id) && !Ends(op, room, peer) && !Wipes(op, room)
                  else id == |ops| && Registers(ops, op, room, peer))
  {
    var all := ops + [op];
    if id < |ops| {
      assert all[id + 1..] == ops[id + 1..] + [op] && all[..id] == ops[..id];
      StaysGrows(ops[id + 1..], op, room, peer);
    } else if id == |ops| {
      assert all[..id] == ops && all[id + 1..] == [];
    }
  }

  /** The registry holds exactly the send transports of the history, the newest last. */
  lemma {:induction false} SendsAreHistory(ops: seq<Op>, room: string, peer: string)
    ensures forall id :: id in SendsOf(Exec(ops), room, peer) <==> SentFor(ops, room, peer, id)
    ensures Find(SendsOf(Exec(ops), room, peer), None) == NewestSend(ops, room, peer)
    decreases |ops|
  {
    if ops != [] {
      var init, last := ops[..|ops| - 1], ops[|ops| - 1];
      SendsAreHistory(init, room, peer);
      OpenIsPresent(init, room);
      TransportsAfter(Exec(init), last, |init|, room, peer);
      assert init + [last] == ops;
      forall id
        ensures id in SendsOf(Exec(ops), room, peer) <==> SentFor(ops, room, peer, id)
      {
        HistoryGrows(init, last, room, peer, id);
      }
    }
  }

  /** Connecting finds a transport exactly when it was registered for the peer and not lost since. */
  lemma {:induction false} TransportsAreHistory(ops: seq<Op>, room: string, peer: string, id: Id)
    ensures CanConnect(Exec(ops), room, peer, id) <==> CreatedFor(ops, room, peer, id)
    decreases |ops|
  {
    if ops != [] {
      var init, last := ops[..|ops| - 1], ops[|ops| - 1];
      TransportsAreHistory(init, room, peer, id);
      OpenIsPresent(init, room);
      TransportsAfter(Exec(init), last, |init|, room, peer);
      HistoryGrows(init, last, room, peer, id);
      assert init + [last] == ops;
      InEither(Exec(init), room, peer, id);
      InEither(Exec(ops), room, peer, id);
    }
  }

  lemma InEither(rooms: SfuRooms, room: string, peer: string, id: Id)
    ensures CanConnect(rooms, room, peer, id) <==> id in SendsOf(rooms, room, peer) || id in RecvsOf(rooms, room, peer)
  {
  }

  // ---- What the registry promises ---------------------------------------------------------

  /** The transport a request means: the one it names, if it is a send transport of the peer, and
      without a name the newest. */
  ghost function Meant(ops: seq<Op>, room: string, peer: string, name: Option<Id>): Option<Id> {
    if name.None? then NewestSend(ops, room, peer)
    else if SentFor(ops, room, peer, name.value) then name
    else None
  }

  lemma {:induction false} ProducingSucceedsExactly(ops: seq<Op>, room: string, peer: string, media: Media,
                                                    name: Option<Id>, id: Id)
    ensures CreateProducer(Exec(ops), room, peer, media, name, id).Some? <==> Meant(ops, room, peer, name).Some?
  {
    SendsAreHistory(ops, room, peer);
  }

  lemma {:induction false} ProducesBindTheNamedOrNewest(ops: seq<Op>, room: string, peer: string, media: Media,
                                                        name: Option<Id>)
    requires Meant(ops, room, peer, name).Some?
    ensures BoundTo(Exec(ops + [Produces(room, peer, media, name)]), room, peer, media, |ops|,
                    Meant(ops, room, peer, name).value)
  {
    SendsAreHistory(ops, room, peer);
    ExecStep(ops, Produces(room, peer, media, name));
  }

  /** Bindings were all made by earlier operations. */
  ghost predicate OnlyPast(rooms: SfuRooms, n: nat) {
    forall room, peer, media, id ::
      PeerAt(rooms, room, peer).Some? && id in BindingsOf(PeerAt(rooms, room, peer).value, media)
      ==> id < n
  }

  lemma {:induction false} BindingsArePast(ops: seq<Op>)
    ensures OnlyPast(Exec(ops), |ops|)
    decreases |ops|
  {
    if ops != [] {
      var init, last := ops[..|ops| - 1], ops[|ops| - 1];
      BindingsArePast(init);
      forall room, peer, media, id | PeerAt(Exec(ops), room, peer).Some?
        && id in BindingsOf(PeerAt(Exec(ops), room, peer).value, media)
        ensures id < |ops|
      {
        BindingAfter(Exec(init), last, |init|, room, peer, media, id);
      }
    }
  }

  /** A binding in the next state is an old one, unchanged, or was made just now. */
  lemma BindingAfter(rooms: SfuRooms, op: Op, n: Id, room: string, peer: string, media: Media, id: Id)
    requires PeerAt(After(rooms, op, n), room, peer).Some?
    requires id in BindingsOf(PeerAt(After(rooms, op, n), room, peer).value, media)
    ensures || (id == n && op.Produces? && op.room == room && op.peer == peer && op.media == media)
            || BoundTo(rooms, room, peer, media, id, BindingsOf(PeerAt(After(rooms, op, n), room, peer).value, media)[id])
  {
  }

  /** One later operation: the binding is lost with the peer or the room, and otherwise untouched. */
  lemma BindingSurvives(rooms: SfuRooms, op: Op, n: Id, room: string, peer: string, media: Media, id: Id, t: Id)
    requires id < n
    ensures BoundTo(After(rooms, op, n), room, peer, media, id, t)
            <==> BoundTo(rooms, room, peer, media, id, t) && !Ends(op, room, peer) && !Wipes(op, room)
  {
  }

  /** A binding lasts exactly as long as its peer stays and its room is not wiped; nothing rebinds it. */
  lemma {:induction false} BindingsAreForever(ops: seq<Op>, more: seq<Op>, room: string, peer: string,
                                              media: Media, producer: Id, transport: Id)
    requires BoundTo(Exec(ops), room, peer, media, producer, transport)
    ensures BoundTo(Exec(ops + more), room, peer, media, producer, transport)
            <==> Stays(more, room, peer) && NotWiped(more, room)
    decreases |more|
  {
    if more == [] {
      assert ops + more == ops;
    } else {
      var init, last := more[..|more| - 1], more[|more| - 1];
      BindingsAreForever(ops, init, room, peer, media, producer, transport);
      BindingsArePast(ops);
      assert ops + more == (ops + init) + [last] && more == init + [last];
      ExecStep(ops + init, last);
      BindingSurvives(Exec(ops + init), last, |ops + init|, room, peer, media, producer, transport);
      StaysGrows(init, last, room, peer);
    }
  }

  function ProducersOf(rooms: SfuRooms, room: string, peer: string, media: Media): seq<Id> {
    var p := PeerAt(rooms, room, peer);
    if p.None? then [] else if media.Track? then p.value.producers else p.value.dataProducers
  }

  /** Operation `id` produced for the peer, successfully, and neither peer nor room was lost since. */
  ghost predicate ProducedFor(ops: seq<Op>, room: string, peer: string, media: Media, id: Id) {
    && id < |ops| && ops[id].Produces? && ops[id].room == room && ops[id].peer == peer && ops[id].media == media
    && Meant(ops[..id], room, peer, ops[id].name).Some?
    && Stays(ops[id + 1..], room, peer) && NotWiped(ops[id + 1..], room)
  }

  lemma ProducersAfter(rooms: SfuRooms, op: Op, n: Id, room: string, peer: string, media: Media)
    ensures ProducersOf(After(rooms, op, n), room, peer, media) ==
            if op.Produces? && op.room == room && op.peer == peer && op.media == media
               && CreateProducer(rooms, room, peer, media, op.name, n).Some?
            then ProducersOf(rooms, room, peer, media) + [n]
            else if Ends(op, room, peer) || Wipes(op, room) then []
            else ProducersOf(rooms, room, peer, media)
  {
  }

  lemma {:induction false} ProducedGrows(ops: seq<Op>, op: Op, room: string, peer: string, media: Media, id: Id)
    ensures ProducedFor(ops + [op], room, peer, media, id)
            <==> (if id < |ops| then ProducedFor(ops, room, peer, media, id) && !Ends(op, room, peer) && !Wipes(op, room)
                  else id == |ops| && op.Produces? && op.room == room && op.peer == peer && op.media == media
                       && Meant(ops, room, peer, op.name).Some?)
  {
    var all := ops + [op];
    if id < |ops| {
      assert all[id + 1..] == ops[id + 1..] + [op] && all[..id] == ops[..id];
      StaysGrows(ops[id + 1..], op, room, peer);
    } else if id == |ops| {
      assert all[..id] == ops && all[id + 1..] == [];
    }
  }

  /** The producers listed for late joiners, and the data producers, are exactly those produced and not
      lost since. */
  lemma {:induction false} ListedAreProduced(ops: seq<Op>, room: string, peer: string, media: Media, id: Id)
    ensures id in ProducersOf(Exec(ops), room, peer, media) <==> ProducedFor(ops, room, peer, media, id)
    decreases |ops|
  {
    if ops != [] {
      var init, last := ops[..|ops| - 1], ops[|ops| - 1];
      ListedAreProduced(init, room, peer, media, id);
      ProducersAfter(Exec(init), last, |init|, room, peer, media);
      if last.Produces? {
        ProducingSucceedsExactly(init, room, peer, media, last.name, |init|);
      }
      assert init + [last] == ops;
      ProducedGrows(init, last, room, peer, media, id);
      assert id >= |ops| ==> !ProducedFor(ops, room, peer, media, id);
    }
  }

  /** A producer id is bound in one place only, so the global lookup has one answer. */
  lemma {:induction false} ProducersAreUnique(ops: seq<Op>, room: string, peer: string, media: Media,
                                              room': string, peer': string, media': Media, id: Id)
    requires PeerAt(Exec(ops), room, peer).Some? && id in BindingsOf(PeerAt(Exec(ops), room, peer).value, media)
    requires PeerAt(Exec(ops), room', peer').Some? && id in BindingsOf(PeerAt(Exec(ops), room', peer').value, media')
    ensures room == room' && peer == peer' && media == media'
    decreases |ops|
  {
    var init, last := ops[..|ops| - 1], ops[|ops| - 1];
    BindingsArePast(init);
    BindingAfter(Exec(init), last, |init|, room, peer, media, id);
    BindingAfter(Exec(init), last, |init|, room', peer', media', id);
    if id < |init| {
      ProducersAreUnique(init, room, peer, media, room', peer', media', id);
    }
  }
}

/** When a transport is lost although nobody took its peer or its room away. */
module SfuRaces {
  import opened Wrappers
  import opened Messages
  import opened SfuSpec

  /** A registered transport of a peer that stays is lost exactly when, after it was stored, a creation
      that had found the room absent inserts it, or a removal that had found it empty closes it. */
  lemma {:induction false} LostExactlyWhenWiped(ops: seq<Op>, room: string, peer: string, id: Id)
    requires id < |ops| && Registers(ops[..id], ops[id], room, peer) && Stays(ops[id + 1..], room, peer)
    ensures !CanConnect(Exec(ops), room, peer, id) <==> exists j :: id < j < |ops| && Wipes(ops[j], room)
  {
    TransportsAreHistory(ops, room, peer, id);
    var since := ops[id + 1..];
    if !NotWiped(since, room) {
      var i :| 0 <= i < |since| && Wipes(since[i], room);
      assert Wipes(ops[id + 1 + i], room);
    }
    if j :| id < j < |ops| && Wipes(ops[j], room) {
      assert since[j - id - 1] == ops[j];
    }
  }

  /** Some creation found the room absent and has yet to insert it, or some removal found it empty and
      has yet to close it. */
  ghost predicate Endangered(ops: seq<Op>, room: string) {
    || (exists call :: PhaseOf(ops, call).Routing? && PhaseOf(ops, call).room == room)
    || Closings(ops, room) > 0
  }

  /** A step that takes neither peer nor room away can lose a transport that can be connected exactly
      when its room is endangered. */
  lemma {:induction false} LosableExactlyWhenEndangered(ops: seq<Op>, room: string, peer: string, id: Id)
    requires CanConnect(Exec(ops), room, peer, id)
    ensures Endangered(ops, room)
            <==> exists op :: Enabled(ops, op) && !Ends(op, room, peer) && !CanConnect(Exec(ops + [op]), room, peer, id)
  {
    if call :| PhaseOf(ops, call).Routing? && PhaseOf(ops, call).room == room {
      LostBy(ops, Inserts(call, room), room, peer, id);
    }
    if Closings(ops, room) > 0 {
      LostBy(ops, EmptiedCloses(room), room, peer, id);
    }
    if op :| Enabled(ops, op) && !Ends(op, room, peer) && !CanConnect(Exec(ops + [op]), room, peer, id) {
      LostBy(ops, op, room, peer, id);
    }
  }

  lemma {:induction false} LostBy(ops: seq<Op>, op: Op, room: string, peer: string, id: Id)
    requires CanConnect(Exec(ops), room, peer, id)
    ensures !CanConnect(Exec(ops + [op]), room, peer, id) <==> Ends(op, room, peer) || Wipes(op, room)
  {
    TransportsAreHistory(ops, room, peer, id);
    TransportsAreHistory(ops + [op], room, peer, id);
    HistoryGrows(ops, op, room, peer, id);
  }

  /** The guards of the two unguarded operations, looked at again when they happen. */
  predicate CarefulStep(rooms: SfuRooms, op: Op) {
    && (op.Inserts? ==> op.room !in rooms)
    && (op.EmptiedCloses? && op.room in rooms ==> Vacant(rooms, op.room))
  }

  /** Nobody inserts a room that is there or closes one that has been entered again. */
  predicate Careful(ops: seq<Op>) {
    forall k :: 0 <= k < |ops| ==> CarefulStep(Exec(ops[..k]), ops[k])
  }

  lemma CarefulStepSparesTheSeated(rooms: SfuRooms, op: Op, room: string, peer: string)
    requires CarefulStep(rooms, op) && PeerAt(rooms, room, peer).Some?
    ensures !Wipes(op, room)
  {
  }

  /** A peer whose transport is there is not wiped by a careful step. */
  lemma {:induction false} CarefulStepWipesNoOne(ops: seq<Op>, op: Op, room: string, peer: string, id: Id)
    requires CreatedFor(ops, room, peer, id) && CarefulStep(Exec(ops), op)
    ensures !Wipes(op, room)
  {
    TransportsAreHistory(ops, room, peer, id);
    CarefulStepSparesTheSeated(Exec(ops), op, room, peer);
  }

  lemma {:induction false} WithoutTheLast(ops: seq<Op>, id: nat)
    requires id + 1 < |ops|
    ensures var init := ops[..|ops| - 1];
            && init[..id] == ops[..id] && init[id] == ops[id]
            && ops[id + 1..] == init[id + 1..] + [ops[|ops| - 1]]
  {
  }

  lemma {:induction false} CarefulRunsNeverWipeTheSeated(ops: seq<Op>, room: string, peer: string, id: Id)
    requires Careful(ops)
    requires id < |ops| && Registers(ops[..id], ops[id], room, peer) && Stays(ops[id + 1..], room, peer)
    ensures NotWiped(ops[id + 1..], room)
    decreases |ops|
  {
    if id + 1 < |ops| {
      var init, last := ops[..|ops| - 1], ops[|ops| - 1];
      CarefulPrefix(ops);
      WithoutTheLast(ops, id);
      StaysGrows(init[id + 1..], last, room, peer);
      CarefulRunsNeverWipeTheSeated(init, room, peer, id);
      CarefulStepWipesNoOne(init, last, room, peer, id);
    }
  }

  /** In careful runs a registered transport stays connectable as long as its peer stays. */
  lemma {:induction false} CarefulRunsLoseNothing(ops: seq<Op>, room: string, peer: string, id: Id)
    requires Careful(ops)
    requires id < |ops| && Registers(ops[..id], ops[id], room, peer) && Stays(ops[id + 1..], room, peer)
    ensures CanConnect(Exec(ops), room, peer, id)
  {
    CarefulRunsNeverWipeTheSeated(ops, room, peer, id);
    TransportsAreHistory(ops, room, peer, id);
  }

  lemma {:induction false} CarefulPrefix(ops: seq<Op>)
    requires Careful(ops) && ops != []
    ensures Careful(ops[..|ops| - 1]) && CarefulStep(Exec(ops[..|ops| - 1]), ops[|ops| - 1])
  {
    var init := ops[..|ops| - 1];
    forall k | 0 <= k < |init|
      ensures CarefulStep(Exec(init[..k]), init[k])
    {
      assert init[k] == ops[k] && init[..k] == ops[..k];
    }
  }

  /** ... and so does what was produced on it. */
  lemma {:induction false} CarefulRunsKeepBindings(ops: seq<Op>, more: seq<Op>, room: string, peer: string,
                                                   media: Media, producer: Id, transport: Id)
    requires Careful(ops + more) && Stays(more, room, peer)
    requires BoundTo(Exec(ops), room, peer, media, producer, transport)
    ensures BoundTo(Exec(ops + more), room, peer, media, producer, transport)
    decreases |more|
  {
    if more == [] {
      assert ops + more == ops;
    } else {
      var init, last := more[..|more| - 1], more[|more| - 1];
      assert (ops + more)[..|ops + more| - 1] == ops + init && more == init + [last];
      assert ops + more == (ops + init) + [last];
      CarefulPrefix(ops + more);
      StaysGrows(init, last, room, peer);
      CarefulRunsKeepBindings(ops, init, room, peer, media, producer, transport);
      CarefulStepSparesTheSeated(Exec(ops + init), last, room, peer);
      BindingsArePast(ops);
      ExecStep(ops + init, last);
      BindingSurvives(Exec(ops + init), last, |ops + init|, room, peer, media, producer, transport);
    }
  }

  /** The latest send transport registered for the peer since it, or its room, was taken away. */
  function NewestRegistered(ops: seq<Op>, room: string, peer: string): Option<Id> {
    if ops == [] then None
    else
      var init, last := ops[..|ops| - 1], ops[|ops| - 1];
      if Registers(init, last, room, peer) && last.dir == Send then Some(|ops| - 1)
      else if Ends(last, room, peer) then None
      else NewestRegistered(init, room, peer)
  }

  /** In careful runs an unnamed producer goes to the latest send transport registered. */
  lemma {:induction false} CarefulRunsBindTheNewest(ops: seq<Op>, room: string, peer: string)
    requires Careful(ops)
    ensures NewestSend(ops, room, peer) == NewestRegistered(ops, room, peer)
    decreases |ops|
  {
    if ops != [] {
      var init, last := ops[..|ops| - 1], ops[|ops| - 1];
      CarefulPrefix(ops);
      CarefulRunsBindTheNewest(init, room, peer);
      SendsAreHistory(init, room, peer);
      if PeerAt(Exec(init), room, peer).Some? {
        CarefulStepSparesTheSeated(Exec(init), last, room, peer);
      }
    }
  }

  /** Two creations that both find the room absent: the second insertion takes away the first one's
      transport and what was produced on it, though nobody left and nothing was closed. */
  function CollidingCreations(room: string, a: string, b: string): seq<Op> {
    [LooksUp(0, room, a, Send), LooksUp(1, room, b, Send), Inserts(0, room), Stores(0, room, a, Send),
     Produces(room, a, Track, None), Inserts(1, room)]
  }

  lemma BothLookedUp(room: string, a: string, b: string) returns (ops: seq<Op>)
    ensures ops == CollidingCreations(room, a, b)[..3] && Run(ops) && Exec(ops) == map[room := map[]]
    ensures PhaseOf(ops, 0) == Creating(room, a, Send) && PhaseOf(ops, 1) == Routing(room, b, Send)
  {
    ops := Take([], LooksUp(0, room, a, Send));
    ops := Take(ops, LooksUp(1, room, b, Send));
    ops := Take(ops, Inserts(0, room));
  }

  lemma SecondInsertLosesTheFirst(room: string, a: string, b: string)
    ensures var ops := CollidingCreations(room, a, b);
            && Run(ops) && Stays(ops, room, a)
            && CanConnect(Exec(ops[..5]), room, a, 3) && BoundTo(Exec(ops[..5]), room, a, Track, 4, 3)
            && !CanConnect(Exec(ops), room, a, 3) && !BoundTo(Exec(ops), room, a, Track, 4, 3)
  {
    var ops := BothLookedUp(room, a, b);
    ops := Take(ops, Stores(0, room, a, Send));
    ops := Take(ops, Produces(room, a, Track, None));
    assert CanConnect(Exec(ops), room, a, 3) && BoundTo(Exec(ops), room, a, Track, 4, 3);
    assert ops == CollidingCreations(room, a, b)[..5];
    ops := Take(ops, Inserts(1, room));
    assert ops == CollidingCreations(room, a, b);
  }

  /** A creation that finds the room between a last departure and its closing loses its transport. */
  function DepartureThenEntry(room: string, a: string, b: string): seq<Op> {
    [LooksUp(0, room, a, Send), Inserts(0, room), Stores(0, room, a, Send), PeerLeaves(room, a),
     LooksUp(1, room, b, Send), Stores(1, room, b, Send), EmptiedCloses(room)]
  }

  lemma Came(room: string, a: string) returns (ops: seq<Op>)
    ensures ops == [LooksUp(0, room, a, Send), Inserts(0, room), Stores(0, room, a, Send)]
    ensures Run(ops) && Closings(ops, room) == 0 && PhaseOf(ops, 1).Unused?
    ensures Exec(ops).Keys == {room} && Exec(ops)[room].Keys == {a}
  {
    ops := Take([], LooksUp(0, room, a, Send));
    ops := Take(ops, Inserts(0, room));
    assert Exec(ops) == map[room := map[]];
    ops := Take(ops, Stores(0, room, a, Send));
  }

  lemma CameAndWent(room: string, a: string) returns (ops: seq<Op>)
    ensures ops == [LooksUp(0, room, a, Send), Inserts(0, room), Stores(0, room, a, Send), PeerLeaves(room, a)]
    ensures Run(ops) && Exec(ops) == map[room := map[]] && Closings(ops, room) == 1 && PhaseOf(ops, 1).Unused?
  {
    var before := Came(room, a);
    assert Exec(before)[room] - {a} == map[];
    assert Empties(Exec(before), PeerLeaves(room, a), room);
    ops := Take(before, PeerLeaves(room, a));
  }

  lemma EnteredBeforeClosing(room: string, a: string, b: string) returns (ops: seq<Op>)
    requires a != b
    ensures ops == DepartureThenEntry(room, a, b)[..6] && Run(ops)
    ensures CanConnect(Exec(ops), room, b, 5) && Closings(ops, room) == 1
  {
    ops := CameAndWent(room, a);
    ops := Take(ops, LooksUp(1, room, b, Send));
    ops := Take(ops, Stores(1, room, b, Send));
  }

  lemma LateClosingLosesTheNewcomer(room: string, a: string, b: string)
    requires a != b
    ensures var ops := DepartureThenEntry(room, a, b);
            && Run(ops) && Stays(ops, room, b)
            && CanConnect(Exec(ops[..6]), room, b, 5) && !CanConnect(Exec(ops), room, b, 5)
  {
    var ops := EnteredBeforeClosing(room, a, b);
    ops := Take(ops, EmptiedCloses(room));
    assert ops == DepartureThenEntry(room, a, b);
  }

  /** A transport is answered as created but registered only if its room is there when it is stored. */
  lemma {:induction false} StoredExactlyWhenOpen(ops: seq<Op>, call: CallId, room: string, peer: string,
                                                 dir: TransportDirection)
    requires Enabled(ops, Stores(call, room, peer, dir))
    ensures CanConnect(Exec(ops + [Stores(call, room, peer, dir)]), room, peer, |ops|) <==> Open(ops, room)
  {
    TransportsAreHistory(ops + [Stores(call, room, peer, dir)], room, peer, |ops|);
    HistoryGrows(ops, Stores(call, room, peer, dir), room, peer, |ops|);
  }
}

module Sfu {
  import opened Wrappers
  import opened Messages
  import opened SfuSpec

  /** `SfuManager` without its media worker: the registries its methods update. */
  class SfuManager {
    var rooms: SfuRooms

    constructor ()
      ensures rooms == map[]
    {
      rooms := map[];
    }

    /** All three operations with nothing in between. */
    method CreateWebRtcTransport(room: string, peer: string, dir: TransportDirection, id: Id)
      modifies this
      ensures rooms == StoreTransport(if room in old(rooms) then old(rooms) else old(rooms)[room := map[]],
                                      room, peer, dir, id)
      ensures CanConnect(rooms, room, peer, id)
    {
      if room !in rooms {
        rooms := rooms[room := map[]];
      }
      if room in rooms {
        var entry := if peer in rooms[room] then rooms[room][peer] else NewPeer;
        match dir {
          case Send =>
            entry := entry.(sendTransports := entry.sendTransports + [id]);
          case Recv =>
            entry := entry.(recvTransports := entry.recvTransports + [id]);
        }
        rooms := rooms[room := rooms[room][peer := entry]];
      }
    }

    method Produce(room: string, peer: string, media: Media, name: Option<Id>, id: Id) returns (made: bool)
      modifies this
      ensures made == CreateProducer(old(rooms), room, peer, media, name, id).Some?
      ensures made ==> rooms == CreateProducer(old(rooms), room, peer, media, name, id).value
      ensures !made ==> rooms == old(rooms)
    {
      if room !in rooms || peer !in rooms[room] {
        return false;
      }
      var entry := rooms[room][peer];
      var bound := LookupTransport(entry.sendTransports, name);
      if bound.None? {
        return false;
      }
      match media {
        case Track =>
          entry := entry.(producers := entry.producers + [id],
                          producerTransports := entry.producerTransports[id := bound.value]);
        case DataChannel =>
          entry := entry.(dataProducers := entry.dataProducers + [id],
                          dataProducerTransports := entry.dataProducerTransports[id := bound.value]);
      }
      rooms := rooms[room := rooms[room][peer := entry]];
      made := true;
    }

    /** The search itself: the first transport with the given id. */
    method LookupTransport(transports: seq<Id>, name: Option<Id>) returns (found: Option<Id>)
      ensures found == Find(transports, name)
    {
      if name.None? {
        return if |transports| == 0 then None else Some(transports[|transports| - 1]);
      }
      for i := 0 to |transports|
        invariant name.value !in transports[..i]
      {
        if transports[i] == name.value {
          return Some(transports[i]);
        }
      }
      found := None;
    }

    /** Both operations with nothing in between: a room goes with its last peer. */
    method DropPeer(room: string, peer: string) returns (removed: bool)
      modifies this
      ensures removed == PeerAt(old(rooms), room, peer).Some?
      ensures var left := RemovePeer(old(rooms), room, peer);
              rooms == if removed && Vacant(left, room) then left - {room} else left
    {
      if room !in rooms || peer !in rooms[room] {
        assert room in rooms ==> rooms[room] - {peer} == rooms[room];
        return false;
      }
      rooms := rooms[room := rooms[room] - {peer}];
      if rooms[room] == map[] {
        rooms := rooms - {room};
      }
      removed := true;
    }
  }

  /** What the two methods do in one go is what uninterrupted runs of the operations do. */
  lemma {:induction false} UninterruptedCreation(ops: seq<Op>, call: CallId, room: string, peer: string,
                                                 dir: TransportDirection)
    requires Run(ops) && PhaseOf(ops, call).Unused?
    ensures var found := room in Exec(ops);
            var more := if found then [LooksUp(call, room, peer, dir), Stores(call, room, peer, dir)]
                        else [LooksUp(call, room, peer, dir), Inserts(call, room), Stores(call, room, peer, dir)];
            && Run(ops + more)
            && Exec(ops + more) == StoreTransport(if found then Exec(ops) else Exec(ops)[room := map[]],
                                                  room, peer, dir, |ops + more| - 1)
  {
    var looked := Take(ops, LooksUp(call, room, peer, dir));
    if room in Exec(ops) {
      var stored := Take(looked, Stores(call, room, peer, dir));
      assert stored == ops + [LooksUp(call, room, peer, dir), Stores(call, room, peer, dir)];
    } else {
      var inserted := Take(looked, Inserts(call, room));
      var stored := Take(inserted, Stores(call, room, peer, dir));
      assert stored == ops + [LooksUp(call, room, peer, dir), Inserts(call, room), Stores(call, room, peer, dir)];
    }
  }
}

/** Late-joiner synchronisation (signaling.rs): a session subscribes to its room's broadcast, then
    lists the producers already registered; a producer is registered, then announced on the
    broadcast of the session that produced it. All of these are separate steps. A room that is closed
    or replaced unregisters its producers one by one. */
module LateJoin {

  type ProducerId = nat
  type SessionId = nat

  /** `mustSee` is what was registered when the listing began; a listing may or may not pick up what
      is registered while it iterates. */
  datatype Sync = Subscribed | Listing(mustSee: set<ProducerId>) | Synced

  datatype Joiner = Joiner(room: string, sync: Sync, queue: seq<ProducerId>, seen: set<ProducerId>)

  datatype Hall = Hall(
    registry: map<string, set<ProducerId>>,
    // registered and not yet broadcast, with the room of the producing session
    announcing: map<ProducerId, string>,
    joiners: map<SessionId, Joiner>)

  datatype Step =
    | Subscribes(s: SessionId, room: string)
    | StartsListing(s: SessionId)
    | EndsListing(s: SessionId, got: set<ProducerId>)
    | Registers(p: ProducerId, msgRoom: string, sessionRoom: string)
    | Announces(p: ProducerId)
    | Relays(s: SessionId)
    | Unregisters(p: ProducerId, room: string)
    | Leaves(s: SessionId)

  const EmptyHall := Hall(map[], map[], map[])

  function Registered(h: Hall, room: string): set<ProducerId> {
    if room in h.registry then h.registry[room] else {}
  }

  predicate Enabled(h: Hall, step: Step) {
    match step
    case Subscribes(s, _) => s !in h.joiners
    case StartsListing(s) => s in h.joiners && h.joiners[s].sync.Subscribed?
    case EndsListing(s, got) =>
      && s in h.joiners && h.joiners[s].sync.Listing?
      && h.joiners[s].sync.mustSee * Registered(h, h.joiners[s].room) <= got
    case Registers(p, _, _) => p !in h.announcing
    case Announces(p) => p in h.announcing
    case Relays(s) => s in h.joiners && h.joiners[s].queue != []
    case Unregisters(_, _) => true
    case Leaves(s) => s in h.joiners
  }

  function Apply(h: Hall, step: Step): Hall
    requires Enabled(h, step)
  {
    match step
    case Subscribes(s, room) => h.(joiners := h.joiners[s := Joiner(room, Subscribed, [], {})])
    case StartsListing(s) =>
      var j := h.joiners[s];
      h.(joiners := h.joiners[s := j.(sync := Listing(Registered(h, j.room)))])
    case EndsListing(s, got) =>
      var j := h.joiners[s];
      h.(joiners := h.joiners[s := j.(sync := Synced, seen := j.seen + got)])
    case Registers(p, msgRoom, sessionRoom) =>
      h.(registry := h.registry[msgRoom := Registered(h, msgRoom) + {p}],
         announcing := h.announcing[p := sessionRoom])
    case Announces(p) =>
      var room := h.announcing[p];
      h.(announcing := h.announcing - {p},
         joiners := map s | s in h.joiners ::
           if h.joiners[s].room == room then h.joiners[s].(queue := h.joiners[s].queue + [p]) else h.joiners[s])
    case Relays(s) =>
      var j := h.joiners[s];
      h.(joiners := h.joiners[s := j.(queue := j.queue[1..], seen := j.seen + {j.queue[0]})])
    case Unregisters(p, room) =>
      h.(registry := if room in h.registry then h.registry[room := h.registry[room] - {p}] else h.registry)
    case Leaves(s) => h.(joiners := h.joiners - {s})
  }

  predicate Reaches(h: Hall, steps: seq<Step>, g: Hall)
    decreases |steps|
  {
    if steps == [] then h == g
    else Enabled(h, steps[0]) && Reaches(Apply(h, steps[0]), steps[1..], g)
  }

  /** Producers are registered under the room of the session that sends the request, or otherwise
      with the two given rooms. */
  predicate MatchedBut(steps: seq<Step>, msgRoom: string, sessionRoom: string) {
    forall i :: 0 <= i < |steps| && steps[i].Registers? ==>
      || steps[i].msgRoom == steps[i].sessionRoom
      || (steps[i].msgRoom == msgRoom && steps[i].sessionRoom == sessionRoom)
  }

  /** The producer reaches the joiner: it has been sent, is queued, will be listed, or will be announced. */
  predicate OnItsWay(h: Hall, j: Joiner, p: ProducerId) {
    || p in j.seen || p in j.queue
    || (p in h.announcing && h.announcing[p] == j.room)
    || j.sync.Subscribed?
    || (j.sync.Listing? && p in j.sync.mustSee)
  }

  ghost predicate Inv(h: Hall) {
    forall s, p :: s in h.joiners && p in Registered(h, h.joiners[s].room) ==> OnItsWay(h, h.joiners[s], p)
  }

  lemma StepKeeps(h: Hall, step: Step)
    requires Inv(h) && Enabled(h, step)
    requires step.Registers? ==> step.msgRoom == step.sessionRoom
    ensures Inv(Apply(h, step))
  {
    var g := Apply(h, step);
    forall s, p | s in g.joiners && p in Registered(g, g.joiners[s].room)
      ensures OnItsWay(g, g.joiners[s], p)
    {
      if s in h.joiners && p in Registered(h, h.joiners[s].room) {
        assert OnItsWay(h, h.joiners[s], p);
        if step.Relays? && step.s == s && p in h.joiners[s].queue {
          assert p == h.joiners[s].queue[0] || p in h.joiners[s].queue[1..];
        }
      }
    }
  }

  lemma {:induction false} RunKeeps(h: Hall, steps: seq<Step>, g: Hall, room: string)
    requires Inv(h) && Reaches(h, steps, g) && MatchedBut(steps, room, room)
    ensures Inv(g)
    decreases |steps|
  {
    if steps != [] {
      StepKeeps(h, steps[0]);
      RunKeeps(Apply(h, steps[0]), steps[1..], g, room);
    }
  }

  /** A registered producer that a synchronised joiner has no way of learning about. */
  predicate Gap(h: Hall, s: SessionId, p: ProducerId) {
    && s in h.joiners && h.joiners[s].sync.Synced? && h.joiners[s].queue == []
    && h.announcing == map[]
    && p in Registered(h, h.joiners[s].room) && p !in h.joiners[s].seen
  }

  /** When requests name their session's room, every registered producer has reached every joiner
      that has listed, once announcements and queues have run out. */
  lemma NoGap(steps: seq<Step>, h: Hall, room: string, s: SessionId, p: ProducerId)
    requires Reaches(EmptyHall, steps, h) && MatchedBut(steps, room, room)
    ensures !Gap(h, s, p)
  {
    RunKeeps(EmptyHall, steps, h, room);
    if s in h.joiners && p in Registered(h, h.joiners[s].room) {
      assert OnItsWay(h, h.joiners[s], p);
    }
  }

  /** A joiner of the named room is there before a producer is registered under it from a session of
      another room: the announcement goes elsewhere. */
  lemma MismatchLeavesGap(msgRoom: string, sessionRoom: string) returns (steps: seq<Step>, h: Hall)
    requires msgRoom != sessionRoom
    ensures Reaches(EmptyHall, steps, h) && MatchedBut(steps, msgRoom, sessionRoom) && Gap(h, 0, 7)
  {
    var h1 := Apply(EmptyHall, Subscribes(0, msgRoom));
    var h2 := Apply(h1, StartsListing(0));
    var h3 := Apply(h2, EndsListing(0, {}));
    var h4 := Apply(h3, Registers(7, msgRoom, sessionRoom));
    h := Apply(h4, Announces(7));
    steps := [Subscribes(0, msgRoom), StartsListing(0), EndsListing(0, {}), Registers(7, msgRoom, sessionRoom), Announces(7)];
    assert Reaches(h, steps[5..], h);
    assert Reaches(h4, steps[4..], h);
    assert Reaches(h3, steps[3..], h);
    assert Reaches(h2, steps[2..], h);
    assert Reaches(h1, steps[1..], h);
  }

  /** Synchronisation can miss a producer registered with these rooms exactly when they differ. */
  lemma GapExactlyOnMismatch(msgRoom: string, sessionRoom: string)
    ensures msgRoom != sessionRoom
            <==> exists steps, h, s, p ::
                   Reaches(EmptyHall, steps, h) && MatchedBut(steps, msgRoom, sessionRoom) && Gap(h, s, p)
  {
    if msgRoom != sessionRoom {
      var steps, h := MismatchLeavesGap(msgRoom, sessionRoom);
    } else {
      forall steps, h, s, p | Reaches(EmptyHall, steps, h) && MatchedBut(steps, msgRoom, sessionRoom)
        ensures !Gap(h, s, p)
      {
        NoGap(steps, h, msgRoom, s, p);
      }
    }
  }
}
