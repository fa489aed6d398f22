/** What the gateway's state says about the run that led to it, told from the labels of the steps
    alone: which children are there and what room they declared, whether a session is in force and
    as which peer, what was forwarded in it, and which configuration push waits. */
module GatewayHistory {
  import opened Wrappers
  import opened Messages
  import opened GatewaySpec
  import opened GatewaySystem

  function Accepted(steps: seq<Step>): nat {
    if steps == [] then 0
    else Accepted(steps[..|steps| - 1]) + (if steps[|steps| - 1].Accepts? then 1 else 0)
  }

  /** The room of the child's last join, "" without any. */
  function DeclaredRoom(steps: seq<Step>, c: ConnId): string {
    if steps == [] then ""
    else
      var last := steps[|steps| - 1];
      if last.ChildSends? && last.c == c && last.msg.RoomJoin? then last.msg.roomId
      else DeclaredRoom(steps[..|steps| - 1], c)
  }

  /** The peer id of the session in force: from its joining until the state is reset. */
  function PeerInForce(steps: seq<Step>): Option<string> {
    if steps == [] then None
    else
      var last := steps[|steps| - 1];
      if last.Connects? then Some(last.peerId)
      else if last.Resets? then None
      else PeerInForce(steps[..|steps| - 1])
  }

  function Sessions(steps: seq<Step>): nat {
    if steps == [] then 0
    else Sessions(steps[..|steps| - 1]) + (if steps[|steps| - 1].Connects? then 1 else 0)
  }

  /** What children sent while the session was in force, but for joins and leaves, as forwarded. */
  function Forwarded(steps: seq<Step>, vehicleRoom: string): seq<Sent> {
    if steps == [] then []
    else
      var init, last := steps[..|steps| - 1], steps[|steps| - 1];
      var before := Forwarded(init, vehicleRoom);
      if last.Resets? then []
      else if last.ChildSends? && PeerInForce(init).Some? && !last.msg.RoomJoin? && !last.msg.RoomLeave?
      then before + [Sent(Sessions(init), last.c, last.msg, RewriteRoom(last.msg, vehicleRoom))]
      else before
  }

  /** The messages on the wire from the server. */
  function OnTheWire(steps: seq<Step>): seq<Message> {
    if steps == [] then []
    else
      var before, last := OnTheWire(steps[..|steps| - 1]), steps[|steps| - 1];
      if last.ServerAnswers? || last.ServerObjects? then before + [last.resp]
      else if last.ServerPushes? then before + [last.msg]
      else if last.Dispatches? then (if before == [] then [] else before[1..])
      else if last.SessionEnds? then []
      else before
  }

  /** The last push dispatched to this vehicle's room and the peer in force, unless the agent took it. */
  function WaitingPush(steps: seq<Step>, vehicleRoom: string): Option<Message> {
    if steps == [] then None
    else
      var init, last := steps[..|steps| - 1], steps[|steps| - 1];
      if last.AgentTakesPush? then None
      else if last.Dispatches? && OnTheWire(init) != [] && ForTheAgent(OnTheWire(init)[0], vehicleRoom, PeerInForce(init))
      then Some(OnTheWire(init)[0])
      else WaitingPush(init, vehicleRoom)
  }

  predicate ForTheAgent(m: Message, vehicleRoom: string, peer: Option<string>) {
    m.ConfigPush? && m.pushRoom == vehicleRoom && peer == Some(m.pushTarget)
  }

  lemma {:induction false} LastStep(s: System, steps: seq<Step>, t: System) returns (m: System)
    requires Reaches(s, steps, t) && steps != []
    ensures Reaches(s, steps[..|steps| - 1], m) && Enabled(m, steps[|steps| - 1]) && t == Apply(m, steps[|steps| - 1])
    decreases |steps|
  {
    var init := steps[..|steps| - 1];
    if |steps| == 1 {
      m := s;
    } else {
      m := LastStep(Apply(s, steps[0]), steps[1..], t);
      assert init[1..] == steps[1..][..|steps| - 2];
    }
  }

  // ---- Connections -----------------------------------------------------------------------

  ghost predicate ConnsTold(st: GatewayState, steps: seq<Step>) {
    && st.nextId == Accepted(steps) + 1
    && (forall c :: c in st.conns <==> 1 <= c <= Accepted(steps) && Disconnects(c) !in steps)
    && (forall c :: c in st.conns ==> st.conns[c].room == DeclaredRoom(steps, c))
    && (forall c :: c >= st.nextId ==> DeclaredRoom(steps, c) == "" && Disconnects(c) !in steps)
  }

  lemma AddedStep(steps: seq<Step>, last: Step)
    ensures Accepted(steps + [last]) == Accepted(steps) + (if last.Accepts? then 1 else 0)
    ensures forall c :: DeclaredRoom(steps + [last], c) ==
              if last.ChildSends? && last.c == c && last.msg.RoomJoin? then last.msg.roomId else DeclaredRoom(steps, c)
    ensures forall c :: Disconnects(c) in steps + [last] <==> Disconnects(c) in steps || last == Disconnects(c)
  {
    assert (steps + [last])[..|steps|] == steps;
  }

  lemma ConnsAfter(s: System, last: Step)
    requires Enabled(s, last)
    ensures Apply(s, last).gw.nextId == s.gw.nextId + (if last.Accepts? then 1 else 0)
    ensures Apply(s, last).gw.conns ==
            if last.Accepts? then s.gw.conns[s.gw.nextId := Conn(s.gw.nextId, "")]
            else if last.ChildSends? && last.msg.RoomJoin?
            then s.gw.conns[last.c := s.gw.conns[last.c].(room := last.msg.roomId)]
            else if last.Disconnects? then s.gw.conns - {last.c}
            else s.gw.conns
  {
  }

  lemma StepTellsConns(s: System, steps: seq<Step>, last: Step)
    requires ConnsTold(s.gw, steps) && Enabled(s, last)
    ensures ConnsTold(Apply(s, last).gw, steps + [last])
  {
    AddedStep(steps, last);
    ConnsAfter(s, last);
    var t, all := Apply(s, last), steps + [last];
    forall c
      ensures c in t.gw.conns <==> 1 <= c <= Accepted(all) && Disconnects(c) !in all
      ensures c in t.gw.conns ==> t.gw.conns[c].room == DeclaredRoom(all, c)
      ensures c >= t.gw.nextId ==> DeclaredRoom(all, c) == "" && Disconnects(c) !in all
    {
      assert c in s.gw.conns <==> 1 <= c <= Accepted(steps) && Disconnects(c) !in steps;
    }
  }

  /** The children are those accepted and not disconnected, each with the room it declared last. */
  lemma {:induction false} ConnsFollowTheRun(vehicleRoom: string, who: VehicleIdentity, steps: seq<Step>, s: System)
    requires Reaches(Init(vehicleRoom, who), steps, s)
    ensures ConnsTold(s.gw, steps)
    decreases |steps|
  {
    if steps != [] {
      var init, last := steps[..|steps| - 1], steps[|steps| - 1];
      var m := LastStep(Init(vehicleRoom, who), steps, s);
      ConnsFollowTheRun(vehicleRoom, who, init, m);
      assert steps == init + [last];
      StepTellsConns(m, init, last);
    }
  }

  // ---- The session and what was forwarded in it -------------------------------------------

  predicate SessionTold(s: System, steps: seq<Step>) {
    && s.gw.joined == PeerInForce(steps).Some?
    && s.gw.vehiclePeerId == (if PeerInForce(steps).Some? then PeerInForce(steps).value else "")
    && s.epoch == Sessions(steps)
    && (s.phase.Live? || s.phase.Lost? ==> s.gw.joined)
    && (s.gw.joined ==> s.phase.Live? || s.phase.Lost?)
  }

  lemma SessionAfter(s: System, last: Step)
    requires Enabled(s, last)
    ensures var st := Apply(s, last).gw;
            && st.joined == (last.Connects? || (!last.Resets? && s.gw.joined))
            && st.vehiclePeerId == (if last.Connects? then last.peerId else if last.Resets? then "" else s.gw.vehiclePeerId)
            && st.vehicleRoom == s.gw.vehicleRoom
    ensures Apply(s, last).epoch == s.epoch + (if last.Connects? then 1 else 0)
    ensures Apply(s, last).phase ==
            if last.Connects? then Live else if last.SessionEnds? then Lost else if last.Resets? then Draining
            else if last.Drained? then Connecting else s.phase
  {
  }

  lemma StepTellsSession(s: System, steps: seq<Step>, last: Step)
    requires SessionTold(s, steps) && Enabled(s, last)
    ensures SessionTold(Apply(s, last), steps + [last]) && Apply(s, last).gw.vehicleRoom == s.gw.vehicleRoom
  {
    SessionAfter(s, last);
    assert (steps + [last])[..|steps|] == steps;
  }

  /** The state is joined exactly while a session is in force, and knows its peer id. */
  lemma {:induction false} SessionFollowsTheRun(vehicleRoom: string, who: VehicleIdentity, steps: seq<Step>, s: System)
    requires Reaches(Init(vehicleRoom, who), steps, s)
    ensures SessionTold(s, steps) && s.gw.vehicleRoom == vehicleRoom
    decreases |steps|
  {
    if steps != [] {
      var init, last := steps[..|steps| - 1], steps[|steps| - 1];
      var m := LastStep(Init(vehicleRoom, who), steps, s);
      SessionFollowsTheRun(vehicleRoom, who, init, m);
      assert steps == init + [last];
      StepTellsSession(m, init, last);
    }
  }

  /** What counts as sent is exactly what children said while the session was in force. */
  lemma {:induction false} SentFollowsTheRun(vehicleRoom: string, who: VehicleIdentity, steps: seq<Step>, s: System)
    requires Reaches(Init(vehicleRoom, who), steps, s)
    ensures s.sent == Forwarded(steps, vehicleRoom)
    decreases |steps|
  {
    if steps != [] {
      var m := LastStep(Init(vehicleRoom, who), steps, s);
      SentFollowsTheRun(vehicleRoom, who, steps[..|steps| - 1], m);
      SessionFollowsTheRun(vehicleRoom, who, steps[..|steps| - 1], m);
    }
  }

  /** What a child gets for a message: a join is answered with its own room and the peer in force, or
      like everything else refused with 5001 outside a session; a leave is dropped; the rest is
      forwarded, rewritten for the vehicle room. */
  lemma EveryMessageGetsItsAction(vehicleRoom: string, who: VehicleIdentity, steps: seq<Step>, s: System, c: ConnId,
                                  msg: Message)
    requires Reaches(Init(vehicleRoom, who), steps, s)
    ensures var action := Upstream(s.gw, c, msg).1;
            var peer := PeerInForce(steps);
            && (action.Drop? <==> msg.RoomLeave?)
            && (action.Forward? <==> peer.Some? && !msg.RoomJoin? && !msg.RoomLeave?)
            && (action.Forward? ==> action.msg == RewriteRoom(msg, vehicleRoom))
            && (action.Reply? && peer.Some? ==> action.msg == RoomJoined(msg.roomId, peer.value))
            && (action.Reply? && peer.None? ==> action.msg.Error? && action.msg.code == 5001)
  {
    SessionFollowsTheRun(vehicleRoom, who, steps, s);
  }

  /** What forwarding leaves behind, kind by kind: a slot if the server will answer, ownership for an
      SDP or ICE message, an echo for what the server relays. */
  lemma ForwardingRecords(st: GatewayState, c: ConnId, msg: Message)
    ensures var (after, action) := Upstream(st, c, msg);
            if action.Forward? then
              && after.pending == (if exists resp :: Answers(action.msg, resp) then st.pending + [c] else st.pending)
              && after.p2pOwner == (if msg.Sdp? || msg.RTCIceCandidate? then Some(c) else st.p2pOwner)
              && after.echoCache == (if ServerRelays(action.msg) then Suffix(st.echoCache + [action.msg], 256)
                                     else st.echoCache)
              && after == st.(pending := after.pending, p2pOwner := after.p2pOwner, echoCache := after.echoCache)
            else after == st.(conns := after.conns)
  {
    RequestsAreTheAnswered(RewriteRoom(msg, st.vehicleRoom));
    EchoesAreTheRelayed(RewriteRoom(msg, st.vehicleRoom));
  }

  // ---- The waiting push -------------------------------------------------------------------

  function Texts(wire: seq<Down>): (r: seq<Message>)
    ensures |r| == |wire|
  {
    seq(|wire|, i requires 0 <= i < |wire| => wire[i].msg)
  }

  lemma {:induction false} WireFollowsTheRun(vehicleRoom: string, who: VehicleIdentity, steps: seq<Step>, s: System)
    requires Reaches(Init(vehicleRoom, who), steps, s)
    ensures Texts(s.wireDown) == OnTheWire(steps)
    decreases |steps|
  {
    if steps != [] {
      var m := LastStep(Init(vehicleRoom, who), steps, s);
      WireFollowsTheRun(vehicleRoom, who, steps[..|steps| - 1], m);
    }
  }

  lemma PushAfter(s: System, last: Step)
    requires Enabled(s, last)
    ensures Apply(s, last).gw.pendingConfig ==
            if last.AgentTakesPush? then None
            else if last.Dispatches? && s.wireDown[0].msg.ConfigPush? && s.wireDown[0].msg.pushRoom == s.gw.vehicleRoom
                    && s.wireDown[0].msg.pushTarget == s.gw.vehiclePeerId
            then Some(s.wireDown[0].msg)
            else s.gw.pendingConfig
  {
  }

  /** The push that waits for the agent is the last one dispatched that was for it, while not taken. */
  lemma {:induction false} PushFollowsTheRun(vehicleRoom: string, who: VehicleIdentity, steps: seq<Step>, s: System)
    requires Reaches(Init(vehicleRoom, who), steps, s)
    ensures s.gw.pendingConfig == WaitingPush(steps, vehicleRoom)
    decreases |steps|
  {
    if steps != [] {
      var init, last := steps[..|steps| - 1], steps[|steps| - 1];
      var m := LastStep(Init(vehicleRoom, who), steps, s);
      PushFollowsTheRun(vehicleRoom, who, init, m);
      SessionFollowsTheRun(vehicleRoom, who, init, m);
      WireFollowsTheRun(vehicleRoom, who, init, m);
      PushAfter(m, last);
      if last.Dispatches? {
        assert OnTheWire(init)[0] == m.wireDown[0].msg;
      }
    }
  }
}
