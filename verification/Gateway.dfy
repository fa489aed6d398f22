/** The routing state of the host agent's signalling gateway (gateway.rs): first as
    functions on a value, then as the object whose methods change it under one lock. */
module GatewaySpec {
  import opened Wrappers
  import opened Messages

  type ConnId = nat

  /** The upstream channel's sender that is not a child: ids handed to children start at 1. */
  const AGENT: ConnId := 0
  const ECHO_CACHE_CAP := 256
  const GATEWAY_DISCONNECTED := Error(5001, "gateway not connected to server")

  /** One local child process; `room` is the room it declared in its last RoomJoin. */
  datatype Conn = Conn(id: ConnId, room: string)

  datatype Action = Forward(msg: Message) | Reply(msg: Message) | Drop

  datatype GatewayState = GatewayState(
    conns: map<ConnId, Conn>,
    nextId: ConnId,
    pending: seq<ConnId>,
    p2pOwner: Option<ConnId>,
    echoCache: seq<Message>,
    vehiclePeerId: string,
    joined: bool,
    vehicleRoom: string,
    pendingConfig: Option<Message>)

  function Initial(vehicleRoom: string): GatewayState {
    GatewayState(map[], 1, [], None, [], "", false, vehicleRoom, None)
  }

  /** The last `n` elements, or all of them. */
  function Suffix<T>(s: seq<T>, n: nat): (r: seq<T>)
    ensures |r| == if |s| <= n then |s| else n
  {
    if |s| <= n then s else s[|s| - n..]
  }

  function WithoutLast<T>(s: seq<T>): seq<T> {
    if s == [] then [] else s[..|s| - 1]
  }

  function Accept(st: GatewayState): GatewayState {
    st.(conns := st.conns[st.nextId := Conn(st.nextId, "")], nextId := st.nextId + 1)
  }

  function Upstream(st: GatewayState, c: ConnId, msg: Message): (GatewayState, Action) {
    if msg.RoomJoin? then
      (if c in st.conns then st.(conns := st.conns[c := st.conns[c].(room := msg.roomId)]) else st,
       Reply(if st.joined then RoomJoined(msg.roomId, st.vehiclePeerId) else GATEWAY_DISCONNECTED))
    else if msg.RoomLeave? then
      (st, Drop)
    else if !st.joined then
      (st, Reply(GATEWAY_DISCONNECTED))
    else
      var m := RewriteRoom(msg, st.vehicleRoom);
      (st.(pending := if IsSfuRequest(m) then st.pending + [c] else st.pending,
           p2pOwner := if IsNegotiation(m) then Some(c) else st.p2pOwner,
           echoCache := if IsRelay(m) then Suffix(st.echoCache + [m], ECHO_CACHE_CAP) else st.echoCache),
       Forward(m))
  }

  /** The children a message from the server goes to, each with the message as that child sees it. */
  function Downstream(st: GatewayState, msg: Message): (GatewayState, map<ConnId, Message>) {
    if IsRelay(msg) && msg in st.echoCache then
      (st, map[])
    else if IsSfuResponse(msg) then
      if st.pending == [] then (st, map[])
      else (st.(pending := st.pending[1..]), Unicast(st, Some(st.pending[0]), msg))
    else if IsNegotiation(msg) then
      (st, Unicast(st, st.p2pOwner, msg))
    else if msg.ConfigPush? then
      (if msg.pushRoom == st.vehicleRoom && msg.pushTarget == st.vehiclePeerId
       then st.(pendingConfig := Some(msg)) else st,
       map[])
    else
      (st, map c | c in st.conns :: RewriteRoom(msg, st.conns[c].room))
  }

  function Unicast(st: GatewayState, target: Option<ConnId>, msg: Message): map<ConnId, Message> {
    if target.Some? && target.value in st.conns
    then map[target.value := RewriteRoom(msg, st.conns[target.value].room)]
    else map[]
  }

  function RemoveConn(st: GatewayState, c: ConnId): GatewayState {
    st.(conns := st.conns - {c}, p2pOwner := if st.p2pOwner == Some(c) then None else st.p2pOwner)
  }

  function ResetRemote(st: GatewayState): GatewayState {
    st.(joined := false, pending := [], p2pOwner := None, echoCache := [], vehiclePeerId := "")
  }

  function Joined(st: GatewayState, peerId: string): GatewayState {
    st.(joined := true, vehiclePeerId := peerId)
  }

  function TakePush(st: GatewayState): GatewayState {
    st.(pendingConfig := None)
  }

  /** Every connection is stored under its own id, and ids at or above `nextId` are unused. */
  predicate WellFormed(st: GatewayState) {
    && AGENT < st.nextId
    && (forall c :: c in st.conns ==> AGENT < c < st.nextId && st.conns[c].id == c)
    && (st.p2pOwner.Some? ==> st.p2pOwner.value in st.conns)
    && |st.echoCache| <= ECHO_CACHE_CAP
  }

  lemma UpstreamKeepsWellFormed(st: GatewayState, c: ConnId, msg: Message)
    requires WellFormed(st) && c in st.conns
    ensures WellFormed(Upstream(st, c, msg).0)
  {
  }
}

module Gateway {
  import opened Wrappers
  import opened Messages
  import opened GatewaySpec

  /** `State` in gateway.rs together with the sending half of the upstream channel. Every
      method body is one critical section of the state's lock. */
  class Gateway {
    var conns: map<ConnId, Conn>
    var nextId: ConnId
    var pending: seq<ConnId>
    var p2pOwner: Option<ConnId>
    var echoCache: seq<Message>
    var vehiclePeerId: string
    var joined: bool
    const vehicleRoom: string
    var pendingConfig: Option<Message>
    /** Messages sent to the remote task and not yet received by it. */
    var channel: seq<Message>

    function View(): GatewayState
      reads this
    {
      GatewayState(conns, nextId, pending, p2pOwner, echoCache, vehiclePeerId, joined, vehicleRoom, pendingConfig)
    }

    predicate Valid()
      reads this
    {
      WellFormed(View())
    }

    constructor (room: string)
      ensures Valid() && View() == Initial(room) && channel == []
    {
      conns, nextId, pending, p2pOwner := map[], 1, [], None;
      echoCache, vehiclePeerId, joined, vehicleRoom := [], "", false, room;
      pendingConfig, channel := None, [];
    }

    method AcceptChild() returns (id: ConnId)
      requires Valid()
      modifies this
      ensures Valid() && View() == Accept(old(View())) && channel == old(channel)
      ensures id !in old(conns) && id in conns
    {
      id := nextId;
      nextId := nextId + 1;
      conns := conns[id := Conn(id, "")];
    }

    method Route(c: ConnId, msg: Message) returns (action: Action)
      requires Valid() && c in conns
      modifies this
      ensures Valid() && channel == old(channel)
      ensures (View(), action) == Upstream(old(View()), c, msg)
      ensures pending == if action.Forward? && exists resp :: Answers(action.msg, resp) then old(pending) + [c]
                         else old(pending)
    {
      UpstreamKeepsWellFormed(View(), c, msg);
      RequestsAreTheAnswered(RewriteRoom(msg, vehicleRoom));
      if msg.RoomJoin? {
        if c in conns {
          conns := conns[c := conns[c].(room := msg.roomId)];
        }
        if joined {
          action := Reply(RoomJoined(msg.roomId, vehiclePeerId));
        } else {
          action := Reply(GATEWAY_DISCONNECTED);
        }
      } else if msg.RoomLeave? {
        action := Drop;
      } else {
        var m := RewriteRoom(msg, vehicleRoom);
        if !joined {
          return Reply(GATEWAY_DISCONNECTED);
        }
        if IsSfuRequest(m) {
          pending := pending + [c];
        }
        if IsNegotiation(m) {
          p2pOwner := Some(c);
        }
        if IsRelay(m) {
          echoCache := echoCache + [m];
          if |echoCache| > ECHO_CACHE_CAP {
            echoCache := echoCache[1..];
          }
        }
        action := Forward(m);
      }
    }

    /** The part of `conn_task` that runs under the lock: the slot is pushed and the message sent
        in one step. `open` is false once the remote task has gone; the slot pushed last is then
        taken back, which restores the queue only if this message was the one that pushed it. */
    method Envelope(c: ConnId, msg: Message, open: bool) returns (reply: Option<Message>, broken: bool)
      requires Valid() && c in conns
      modifies this
      ensures Valid()
      ensures var (st, action) := Upstream(old(View()), c, msg);
              && broken == (action.Forward? && !open)
              && channel == (if action.Forward? && open then old(channel) + [action.msg] else old(channel))
              && reply == (if action.Reply? then Some(action.msg) else None)
              && (!broken ==> View() == st)
              && (broken ==> View() == st.(pending := WithoutLast(st.pending))
                             && (pending == old(pending)
                                 <==> (exists resp :: Answers(action.msg, resp)) || old(pending) == []))
      ensures var action := Upstream(old(View()), c, msg).1;
              !broken ==> pending == if action.Forward? && exists resp :: Answers(action.msg, resp)
                                     then old(pending) + [c] else old(pending)
    {
      var action := Route(c, msg);
      reply, broken := None, false;
      match action
      case Forward(m) =>
        if open {
          channel := channel + [m];
        } else {
          if |pending| > 0 {
            pending := pending[..|pending| - 1];
          }
          broken := true;
        }
      case Reply(m) =>
        reply := Some(m);
      case Drop =>
    }

    method FromServer(msg: Message) returns (targets: map<ConnId, Message>)
      requires Valid()
      modifies this
      ensures Valid() && channel == old(channel)
      ensures (View(), targets) == Downstream(old(View()), msg)
      ensures WellFormedStats(msg) ==>
                pending == if (exists req :: Answers(req, msg)) && old(pending) != [] then old(pending)[1..]
                           else old(pending)
    {
      targets := map[];
      ResponsesAreTheAnswers(msg);
      if IsRelay(msg) {
        if msg in echoCache {
          return;
        }
      }
      if IsSfuResponse(msg) {
        if |pending| == 0 {
          return;
        }
        var c := pending[0];
        pending := pending[1..];
        if c in conns {
          targets := map[c := RewriteRoom(msg, conns[c].room)];
        }
      } else if IsNegotiation(msg) {
        if p2pOwner.Some? && p2pOwner.value in conns {
          var conn := conns[p2pOwner.value];
          targets := map[conn.id := RewriteRoom(msg, conn.room)];
        }
      } else if msg.ConfigPush? {
        if msg.pushRoom != vehicleRoom || msg.pushTarget != vehiclePeerId {
          return;
        }
        pendingConfig := Some(msg);
      } else {
        targets := map c | c in conns :: RewriteRoom(msg, conns[c].room);
      }
    }

    method Disconnect(c: ConnId)
      requires Valid()
      modifies this
      ensures Valid() && View() == RemoveConn(old(View()), c) && channel == old(channel)
    {
      conns := conns - {c};
      if p2pOwner == Some(c) {
        p2pOwner := None;
      }
    }

    method SessionStarted(peerId: string)
      requires Valid()
      modifies this
      ensures Valid() && View() == Joined(old(View()), peerId) && channel == old(channel)
    {
      joined := true;
      vehiclePeerId := peerId;
    }

    method SessionLost()
      requires Valid()
      modifies this
      ensures Valid() && View() == ResetRemote(old(View())) && channel == old(channel)
    {
      joined := false;
      pending := [];
      p2pOwner := None;
      echoCache := [];
      vehiclePeerId := "";
    }

    /** The loop that empties the channel after a lost session; nothing else runs in this method,
        the interleaved form is in module GatewaySystem. */
    method DrainChannel()
      requires Valid()
      modifies this`channel
      ensures Valid() && View() == old(View()) && channel == []
    {
      while |channel| > 0
        decreases |channel|
      {
        channel := channel[1..];
      }
    }

    method SendRemote(msg: Message, open: bool) returns (ok: bool)
      requires Valid()
      modifies this`channel
      ensures Valid() && ok == (joined && open)
      ensures channel == if ok then old(channel) + [msg] else old(channel)
    {
      if !joined {
        return false;
      }
      if open {
        channel := channel + [msg];
      }
      ok := open;
    }

    /** Latest push wins, and a push is handed out once. */
    method TakeConfigPush() returns (push: Option<Message>)
      requires Valid()
      modifies this`pendingConfig
      ensures Valid() && push == old(pendingConfig) && pendingConfig == None
      ensures View() == TakePush(old(View()))
    {
      push := pendingConfig;
      pendingConfig := None;
    }
  }
}
