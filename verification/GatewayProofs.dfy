/** Every step of the gateway keeps the invariant; what follows for whole runs. */
module GatewayProofs {
  import opened Wrappers
  import opened Messages
  import opened GatewaySpec
  import opened GatewaySystem

  lemma InitInv(vehicleRoom: string, who: VehicleIdentity)
    ensures Inv(Init(vehicleRoom, who))
  {
  }

  lemma {:induction false} NothingDelivered(xs: seq<Delivery>, c: ConnId)
    requires forall d :: d in xs ==> d.to != c
    ensures AnsweredTo(xs, c) == []
    decreases |xs|
  {
    if xs != [] {
      NothingDelivered(xs[..|xs| - 1], c);
    }
  }

  lemma AcceptsKeeps(s: System)
    requires Inv(s)
    ensures Inv(Apply(s, Accepts))
  {
    var t := Apply(s, Accepts);
    var c := s.gw.nextId;
    assert ShareInv(t.gw.conns.Keys, t.delivered, t.handing, t.handed, Popped(t)) by {
      RequestsAreSent(s.sent);
      OwnsNothing(Popped(s), c);
      NothingDelivered(s.delivered, c);
    }
  }

  // A forwarded message: history, channel and state grow together.

  /** The queue takes in a request with its origin; any other message leaves it alone. */
  lemma PushKeepsQueue(reqs: seq<Sent>, answered: seq<Answer>, pending: seq<ConnId>, x: Sent)
    requires QueueInv(reqs, answered, pending)
    ensures QueueInv(reqs + [x], answered, pending + [x.owner])
    ensures (reqs + [x])[..|answered|] == reqs[..|answered|]
    ensures (reqs + [x])[|answered|..] == reqs[|answered|..] + [x]
  {
  }

  lemma ForwardKeepsQueue(sent: seq<Sent>, answered: seq<Answer>, pending: seq<ConnId>, x: Sent)
    requires QueueInv(Requests(sent), answered, pending)
    ensures QueueInv(Requests(sent + [x]), answered, if IsSfuRequest(x.msg) then pending + [x.owner] else pending)
    ensures Requests(sent + [x])[..|answered|] == Requests(sent)[..|answered|]
    ensures Requests(sent + [x])[|answered|..]
            == if IsSfuRequest(x.msg) then Requests(sent)[|answered|..] + [x] else Requests(sent)[|answered|..]
  {
    Appended(sent, x);
    if IsSfuRequest(x.msg) {
      PushKeepsQueue(Requests(sent), answered, pending, x);
    }
  }

  lemma ForwardKeepsWire(outstanding: seq<Sent>, down: seq<Down>, up: seq<Sent>, channel: seq<Sent>, x: Sent)
    requires WireInv(outstanding, down, up, channel)
    ensures WireInv(if IsSfuRequest(x.msg) then outstanding + [x] else outstanding, down, up, channel + [x])
  {
    Appended(channel, x);
  }

  lemma ForwardKeepsMemory(s: System, c: ConnId, msg: Message, x: Sent)
    requires EchoInv(s.sent, s.gw.echoCache) && OwnerInv(s.sent, s.gw.conns.Keys, s.gw.p2pOwner)
    requires c in s.gw.conns && s.gw.joined && !msg.RoomJoin? && !msg.RoomLeave?
    requires x == Sent(s.epoch, c, msg, RewriteRoom(msg, s.gw.vehicleRoom))
    ensures var t := Apply(s, ChildSends(c, msg));
            EchoInv(t.sent, t.gw.echoCache) && OwnerInv(t.sent, t.gw.conns.Keys, t.gw.p2pOwner)
  {
    RewriteKeepsKind(msg, s.gw.vehicleRoom);
    Appended(s.sent, x);
    SuffixAppend(Relayed(s.sent), x.msg, ECHO_CACHE_CAP);
  }

  lemma ForwardKeepsClean(s: System, c: ConnId, msg: Message, x: Sent)
    requires IdsInv(s) && c in s.gw.conns && s.gw.joined
    requires !msg.RoomJoin? && !msg.RoomLeave? && !DrawsUnslottedError(msg, s.who)
    requires x == Sent(s.epoch, c, msg, RewriteRoom(msg, s.gw.vehicleRoom))
    ensures Clean(x, s.epoch, s.gw.vehicleRoom, s.who) && IdsInv(Apply(s, ChildSends(c, msg)))
  {
    RewriteKeepsKind(msg, s.gw.vehicleRoom);
  }

  lemma CleanAppended(xs: seq<Sent>, x: Sent, epoch: nat, vehicleRoom: string, who: VehicleIdentity)
    requires AllClean(xs, epoch, vehicleRoom, who) && Clean(x, epoch, vehicleRoom, who)
    ensures AllClean(xs + [x], epoch, vehicleRoom, who)
  {
  }

  lemma ForwardKeepsSlots(s: System, c: ConnId, msg: Message, x: Sent)
    requires QueueInv(Requests(s.sent), s.answered, s.gw.pending)
    requires s.phase.Live? ==> WireInv(Outstanding(s), s.wireDown, s.wireUp, s.channel)
    requires c in s.gw.conns && s.gw.joined && !msg.RoomJoin? && !msg.RoomLeave?
    requires x == Sent(s.epoch, c, msg, RewriteRoom(msg, s.gw.vehicleRoom))
    ensures var t := Apply(s, ChildSends(c, msg));
            && QueueInv(Requests(t.sent), t.answered, t.gw.pending)
            && Popped(t) == Popped(s)
            && (s.phase.Live? ==> WireInv(Outstanding(t), t.wireDown, t.wireUp, t.channel))
  {
    RewriteKeepsKind(msg, s.gw.vehicleRoom);
    ForwardKeepsQueue(s.sent, s.answered, s.gw.pending, x);
    if s.phase.Live? {
      ForwardKeepsWire(Outstanding(s), s.wireDown, s.wireUp, s.channel, x);
    }
  }

  lemma ForwardKeeps(s: System, c: ConnId, msg: Message)
    requires Inv(s) && c in s.gw.conns && !DrawsUnslottedError(msg, s.who)
    requires s.gw.joined && !msg.RoomJoin? && !msg.RoomLeave?
    ensures Inv(Apply(s, ChildSends(c, msg)))
  {
    var x := Sent(s.epoch, c, msg, RewriteRoom(msg, s.gw.vehicleRoom));
    ForwardKeepsClean(s, c, msg, x);
    ForwardKeepsMemory(s, c, msg, x);
    ForwardKeepsSlots(s, c, msg, x);
    CleanAppended(s.sent, x, s.epoch, s.gw.vehicleRoom, s.who);
    CleanAppended(s.channel, x, s.epoch, s.gw.vehicleRoom, s.who);
  }

  lemma RefusedKeeps(s: System, c: ConnId, msg: Message)
    requires Inv(s) && c in s.gw.conns && (!s.gw.joined || msg.RoomJoin? || msg.RoomLeave?)
    ensures Inv(Apply(s, ChildSends(c, msg)))
  {
    var t := Apply(s, ChildSends(c, msg));
    assert t == s.(gw := s.gw.(conns := t.gw.conns)) && t.gw.conns.Keys == s.gw.conns.Keys;
    assert Popped(t) == Popped(s) && Outstanding(t) == Outstanding(s);
  }

  lemma ChildSendsKeeps(s: System, c: ConnId, msg: Message)
    requires Inv(s) && c in s.gw.conns && !DrawsUnslottedError(msg, s.who)
    ensures Inv(Apply(s, ChildSends(c, msg)))
  {
    if s.gw.joined && !msg.RoomJoin? && !msg.RoomLeave? {
      ForwardKeeps(s, c, msg);
    } else {
      RefusedKeeps(s, c, msg);
    }
  }

  /** A step that only moves messages along keeps the invariant if it keeps what is said of the wires. */
  lemma MovingKeeps(s: System, t: System)
    requires Inv(s) && PhaseInv(t)
    requires t == s.(channel := t.channel, wireUp := t.wireUp, wireDown := t.wireDown)
    requires AllClean(t.channel, s.epoch, s.gw.vehicleRoom, s.who) && AllClean(t.wireUp, s.epoch, s.gw.vehicleRoom, s.who)
    requires s.phase.Live? ==> WireInv(Outstanding(s), t.wireDown, t.wireUp, t.channel)
    ensures Inv(t)
  {
    assert Outstanding(t) == Outstanding(s) && Popped(t) == Popped(s);
  }

  lemma AgentReportsKeeps(s: System, msg: Message)
    requires Inv(s) && Enabled(s, AgentReports(msg))
    ensures Inv(Apply(s, AgentReports(msg)))
  {
    var x := Sent(s.epoch, AGENT, msg, msg);
    CleanAppended(s.channel, x, s.epoch, s.gw.vehicleRoom, s.who);
    if s.phase.Live? {
      ForwardKeepsWire(Outstanding(s), s.wireDown, s.wireUp, s.channel, x);
    }
    MovingKeeps(s, Apply(s, AgentReports(msg)));
  }

  lemma AgentTakesPushKeeps(s: System)
    requires Inv(s)
    ensures Inv(Apply(s, AgentTakesPush))
  {
    var t := Apply(s, AgentTakesPush);
    assert Popped(t) == Popped(s) && Outstanding(t) == Outstanding(s);
  }

  lemma DisconnectsKeeps(s: System, c: ConnId)
    requires Inv(s) && c in s.gw.conns
    ensures Inv(Apply(s, Disconnects(c)))
  {
  }

  lemma ConnectsKeeps(s: System, peerId: string)
    requires Inv(s) && Enabled(s, Connects(peerId))
    ensures Inv(Apply(s, Connects(peerId)))
  {
    assert Outstanding(s) == [];
  }

  lemma TransmitKeepsWire(outstanding: seq<Sent>, down: seq<Down>, up: seq<Sent>, channel: seq<Sent>)
    requires WireInv(outstanding, down, up, channel) && channel != []
    ensures WireInv(outstanding, down, up + [channel[0]], channel[1..])
  {
    RequestsHead(channel);
    Appended(up, channel[0]);
  }

  lemma TransmitsKeeps(s: System)
    requires Inv(s) && Enabled(s, Transmits)
    ensures Inv(Apply(s, Transmits))
  {
    TransmitKeepsWire(Outstanding(s), s.wireDown, s.wireUp, s.channel);
    CleanAppended(s.wireUp, s.channel[0], s.epoch, s.gw.vehicleRoom, s.who);
  }

  lemma AnswerKeepsWire(outstanding: seq<Sent>, down: seq<Down>, up: seq<Sent>, channel: seq<Sent>, resp: Message)
    requires WireInv(outstanding, down, up, channel) && up != [] && Answers(up[0].msg, resp)
    ensures WireInv(outstanding, down + [Down(resp, Some(up[0]))], up[1..], channel)
  {
    AnswersAreResponses(up[0].msg, resp);
    RequestsHead(up);
    PledgedAppended(down, Down(resp, Some(up[0])));
  }

  lemma SkipKeepsWire(outstanding: seq<Sent>, down: seq<Down>, up: seq<Sent>, channel: seq<Sent>)
    requires WireInv(outstanding, down, up, channel) && up != [] && !IsSfuRequest(up[0].msg)
    ensures WireInv(outstanding, down, up[1..], channel)
  {
    RequestsHead(up);
  }

  lemma ServerAnswersKeeps(s: System, resp: Message)
    requires Inv(s) && Enabled(s, ServerAnswers(resp))
    ensures Inv(Apply(s, ServerAnswers(resp)))
  {
    AnswerKeepsWire(Outstanding(s), s.wireDown, s.wireUp, s.channel, resp);
  }

  lemma ServerNeverObjects(s: System, resp: Message)
    requires AllClean(s.wireUp, s.epoch, s.gw.vehicleRoom, s.who)
    ensures !Enabled(s, ServerObjects(resp))
  {
    assert s.wireUp != [] ==> s.wireUp[0] in s.wireUp;
  }

  lemma ServerSkipsKeeps(s: System)
    requires Inv(s) && Enabled(s, ServerSkips)
    ensures Inv(Apply(s, ServerSkips))
  {
    SkipKeepsWire(Outstanding(s), s.wireDown, s.wireUp, s.channel);
  }

  lemma ServerPushesKeeps(s: System, msg: Message)
    requires Inv(s) && Enabled(s, ServerPushes(msg))
    ensures Inv(Apply(s, ServerPushes(msg)))
  {
    var t := Apply(s, ServerPushes(msg));
    assert t.wireDown[..|t.wireDown| - 1] == s.wireDown;
  }

  // Handing a message out: the queue, the history of answers and the children's shares move together.

  lemma DispatchKeepsWire(outstanding: seq<Sent>, down: seq<Down>, up: seq<Sent>, channel: seq<Sent>)
    requires WireInv(outstanding, down, up, channel) && down != []
    ensures Attributed(down[0])
    ensures if down[0].answers.Some?
            then outstanding != [] && outstanding[0] == down[0].answers.value
                 && WireInv(outstanding[1..], down[1..], up, channel)
            else WireInv(outstanding, down[1..], up, channel)
  {
    PledgedHead(down);
    assert down[0] in down;
  }

  lemma PopKeepsQueue(reqs: seq<Sent>, answered: seq<Answer>, pending: seq<ConnId>, resp: Message)
    requires QueueInv(reqs, answered, pending) && pending != []
    requires Answers(reqs[|answered|].msg, resp)
    ensures pending[0] == reqs[|answered|].owner
    ensures QueueInv(reqs, answered + [Answer(reqs[|answered|], resp, pending[0])], pending[1..])
  {
  }

  /** The response next on the wire answers the oldest outstanding request, whose slot is next. */
  lemma NextResponse(s: System)
    requires Inv(s) && Enabled(s, Dispatches) && IsSfuResponse(s.wireDown[0].msg)
    ensures s.wireDown[0].answers.Some? && s.gw.pending != [] && |s.answered| < |Requests(s.sent)|
    ensures var req := s.wireDown[0].answers.value;
            && Answers(req.msg, s.wireDown[0].msg)
            && req == Requests(s.sent)[|s.answered|]
            && req.owner == s.gw.pending[0]
    ensures WireInv(Outstanding(s)[1..], s.wireDown[1..], s.wireUp, s.channel)
  {
    DispatchKeepsWire(Outstanding(s), s.wireDown, s.wireUp, s.channel);
  }

  /** What the dispatch of a response does: it pops the slot of the connection whose request is
      answered, and goes to that connection or, if it has gone, to nobody. */
  lemma DispatchedResponse(s: System)
    requires Inv(s) && Enabled(s, Dispatches) && IsSfuResponse(s.wireDown[0].msg)
    ensures s.wireDown[0].answers.Some? && s.gw.pending != []
    ensures var req := s.wireDown[0].answers.value;
            && req.owner == s.gw.pending[0] && req.epoch == s.epoch
            && Dispatch(s) == s.(gw := s.gw.(pending := s.gw.pending[1..]), wireDown := s.wireDown[1..],
                                 handing := Unicast(s.gw, Some(req.owner), s.wireDown[0].msg),
                                 handed := s.wireDown[0],
                                 answered := s.answered + [Answer(req, s.wireDown[0].msg, req.owner)])
  {
    NextResponse(s);
    RequestsAreSent(s.sent);
    assert Requests(s.sent)[|s.answered|] in Requests(s.sent);
  }

  lemma OtherLeavesRouting(st: GatewayState, msg: Message)
    requires !IsSfuResponse(msg)
    ensures Downstream(st, msg).0 == st.(pendingConfig := Downstream(st, msg).0.pendingConfig)
  {
  }

  /** Whatever is handed out goes to connected children, each in that child's declared room. */
  lemma TargetsAreConnected(st: GatewayState, msg: Message)
    requires WellFormed(st)
    ensures var targets := Downstream(st, msg).1;
            forall c :: c in targets ==> c in st.conns && targets[c] == RewriteRoom(msg, st.conns[c].room)
  {
  }

  lemma DispatchKeepsShares(conns: set<ConnId>, delivered: seq<Delivery>, handed: Down,
                            handing': map<ConnId, Message>, down: Down, popped: seq<Sent>)
    requires ShareInv(conns, delivered, map[], handed, popped)
    requires handing'.Keys <= conns
    requires down.answers.Some? ==> handing'.Keys == conns * {down.answers.value.owner}
    ensures ShareInv(conns, delivered, handing', down,
                     if down.answers.Some? then popped + [down.answers.value] else popped)
  {
    if down.answers.Some? {
      Appended(popped, down.answers.value);
    }
    forall c | c in conns
      ensures AnsweredTo(delivered, c) == OwnedBy(popped, c)
    {
      assert AnsweredTo(delivered, c) + InHand(map[], handed, c) == OwnedBy(popped, c);
    }
  }

  lemma DispatchKeepsFaith(delivered: seq<Delivery>, handing: map<ConnId, Message>, handed: Down, epoch: nat,
                           st: GatewayState, down: Down)
    requires FaithfulInv(delivered, handing, handed, epoch) && WellFormed(st) && Attributed(down)
    requires down.answers.Some? ==> down.answers.value.epoch == epoch
    requires down.answers.Some? ==>
               Downstream(st, down.msg).1 == Unicast(st, Some(down.answers.value.owner), down.msg)
    ensures FaithfulInv(delivered, Downstream(st, down.msg).1, down, epoch)
  {
    TargetsAreConnected(st, down.msg);
  }

  lemma PopMovesOne(s: System, t: System)
    requires |s.answered| < |Requests(s.sent)| && t.sent == s.sent && |t.answered| == |s.answered| + 1
    ensures Outstanding(t) == Outstanding(s)[1..]
    ensures Popped(t) == Popped(s) + [Requests(s.sent)[|s.answered|]]
  {
  }

  lemma DispatchedResponseKeeps(s: System)
    requires Inv(s) && Enabled(s, Dispatches) && IsSfuResponse(s.wireDown[0].msg)
    ensures Inv(Apply(s, Dispatches))
  {
    var t := Dispatch(s);
    var down := s.wireDown[0];
    NextResponse(s);
    DispatchedResponse(s);
    assert QueueInv(Requests(t.sent), t.answered, t.gw.pending) by {
      PopKeepsQueue(Requests(s.sent), s.answered, s.gw.pending, down.msg);
    }
    PopMovesOne(s, t);
    DispatchKeepsFaith(s.delivered, s.handing, s.handed, s.epoch, s.gw, down);
    DispatchKeepsShares(s.gw.conns.Keys, s.delivered, s.handed, t.handing, down, Popped(s));
  }

  lemma DispatchedOtherKeeps(s: System)
    requires Inv(s) && Enabled(s, Dispatches) && !IsSfuResponse(s.wireDown[0].msg)
    ensures Inv(Apply(s, Dispatches))
  {
    var t := Dispatch(s);
    var down := s.wireDown[0];
    DispatchKeepsWire(Outstanding(s), s.wireDown, s.wireUp, s.channel);
    OtherLeavesRouting(s.gw, down.msg);
    TargetsAreConnected(s.gw, down.msg);
    DispatchKeepsFaith(s.delivered, s.handing, s.handed, s.epoch, s.gw, down);
    DispatchKeepsShares(s.gw.conns.Keys, s.delivered, s.handed, t.handing, down, Popped(s));
    assert Popped(t) == Popped(s) && Outstanding(t) == Outstanding(s);
  }

  lemma DispatchesKeeps(s: System)
    requires Inv(s) && Enabled(s, Dispatches)
    ensures Inv(Apply(s, Dispatches))
  {
    if IsSfuResponse(s.wireDown[0].msg) {
      DispatchedResponseKeeps(s);
    } else {
      DispatchedOtherKeeps(s);
    }
  }

  lemma HandKeepsShares(conns: set<ConnId>, delivered: seq<Delivery>, handing: map<ConnId, Message>,
                        handed: Down, popped: seq<Sent>, c: ConnId)
    requires ShareInv(conns, delivered, handing, handed, popped) && c in handing
    ensures ShareInv(conns, if c in conns then delivered + [Delivery(c, handing[c], handed)] else delivered,
                     handing - {c}, handed, popped)
  {
    var d := Delivery(c, handing[c], handed);
    assert (delivered + [d])[..|delivered|] == delivered;
    forall x | x in conns
      ensures AnsweredTo(if c in conns then delivered + [d] else delivered, x)
              + InHand(handing - {c}, handed, x) == OwnedBy(popped, x)
    {
      assert AnsweredTo(delivered, x) + InHand(handing, handed, x) == OwnedBy(popped, x);
    }
  }

  lemma HandKeepsFaith(conns: set<ConnId>, delivered: seq<Delivery>, handing: map<ConnId, Message>,
                       handed: Down, epoch: nat, c: ConnId)
    requires FaithfulInv(delivered, handing, handed, epoch) && c in handing
    ensures FaithfulInv(if c in conns then delivered + [Delivery(c, handing[c], handed)] else delivered,
                        handing - {c}, handed, epoch)
  {
  }

  lemma HandsKeeps(s: System, c: ConnId)
    requires Inv(s) && c in s.handing
    ensures Inv(Apply(s, Hands(c)))
  {
    var t := Apply(s, Hands(c));
    HandKeepsShares(s.gw.conns.Keys, s.delivered, s.handing, s.handed, Popped(s), c);
    HandKeepsFaith(s.gw.conns.Keys, s.delivered, s.handing, s.handed, s.epoch, c);
    assert Popped(t) == Popped(s) && Outstanding(t) == Outstanding(s);
  }

  lemma SessionEndsKeeps(s: System)
    requires Inv(s) && Enabled(s, SessionEnds)
    ensures Inv(Apply(s, SessionEnds))
  {
  }

  lemma ResetsKeeps(s: System)
    requires Inv(s) && Enabled(s, Resets)
    ensures Inv(Apply(s, Resets))
  {
  }

  lemma DrainsKeeps(s: System, step: Step)
    requires Inv(s) && Enabled(s, step) && (step.Drains? || step.Drained?)
    ensures Inv(Apply(s, step))
  {
  }

  /** The invariant is inductive: every step of a disciplined run keeps it. */
  lemma StepKeeps(s: System, step: Step)
    requires Inv(s) && Enabled(s, step)
    requires step.ChildSends? ==> !DrawsUnslottedError(step.msg, s.who)
    ensures Inv(Apply(s, step))
  {
    match step
    case Accepts => AcceptsKeeps(s);
    case ChildSends(c, msg) => ChildSendsKeeps(s, c, msg);
    case AgentReports(msg) => AgentReportsKeeps(s, msg);
    case AgentTakesPush => AgentTakesPushKeeps(s);
    case Disconnects(c) => DisconnectsKeeps(s, c);
    case Connects(peerId) => ConnectsKeeps(s, peerId);
    case Transmits => TransmitsKeeps(s);
    case ServerAnswers(resp) => ServerAnswersKeeps(s, resp);
    case ServerSkips => ServerSkipsKeeps(s);
    case ServerObjects(resp) =>
      ServerNeverObjects(s, resp);
      assert false;
    case ServerPushes(msg) => ServerPushesKeeps(s, msg);
    case Dispatches => DispatchesKeeps(s);
    case Hands(c) => HandsKeeps(s, c);
    case SessionEnds => SessionEndsKeeps(s);
    case Resets => ResetsKeeps(s);
    case Drains => DrainsKeeps(s, step);
    case Drained => DrainsKeeps(s, step);
  }

  lemma {:induction false} RunKeeps(s: System, steps: seq<Step>, t: System)
    requires Inv(s) && Disciplined(steps, s.who) && Reaches(s, steps, t)
    ensures Inv(t)
    decreases |steps|
  {
    if steps != [] {
      StepKeeps(s, steps[0]);
      RunKeeps(Apply(s, steps[0]), steps[1..], t);
    }
  }
}

/** What the gateway promises, for every interleaving of a run in which children keep to kinds
    that own a slot for every error they draw. */
module GatewayTheorems {
  import opened Wrappers
  import opened Messages
  import opened GatewaySpec
  import opened GatewaySystem
  import opened Roles
  import opened GatewayProofs
  import opened GatewayHistory

  /** In a live session the queue of connection ids is, in order, the true origin of every request
      not yet answered: answers on their way down, then the wire up, then the channel. */
  lemma PendingIsOrigins(vehicleRoom: string, who: VehicleIdentity, steps: seq<Step>, s: System)
    requires Disciplined(steps, who) && Reaches(Init(vehicleRoom, who), steps, s) && s.phase.Live?
    ensures var unanswered := Pledged(s.wireDown) + Requests(s.wireUp) + Requests(s.channel);
            && |s.gw.pending| == |unanswered|
            && forall i :: 0 <= i < |unanswered| ==> s.gw.pending[i] == unanswered[i].owner
  {
    InitInv(vehicleRoom, who);
    RunKeeps(Init(vehicleRoom, who), steps, s);
    assert forall i :: 0 <= i < |Outstanding(s)| ==> Outstanding(s)[i] == Requests(s.sent)[|s.answered| + i];
  }

  /** A response reaches only the connection whose request it answers, within the session of the
      request, and changed in nothing but its room. */
  lemma ResponsesReachTheirRequester(vehicleRoom: string, who: VehicleIdentity, steps: seq<Step>, s: System, d: Delivery)
    requires Disciplined(steps, who) && Reaches(Init(vehicleRoom, who), steps, s) && d in s.delivered
    requires IsSfuResponse(d.msg)
    ensures exists room :: d.msg == RewriteRoom(d.down.msg, room)
    ensures d.down.answers.Some?
    ensures var req := d.down.answers.value;
            req.owner == d.to && req.epoch == s.epoch && Answers(req.msg, d.down.msg)
  {
    InitInv(vehicleRoom, who);
    RunKeeps(Init(vehicleRoom, who), steps, s);
    assert FaithfulTo(d.to, d.msg, d.down, s.epoch);
    var room :| d.msg == RewriteRoom(d.down.msg, room);
    RewriteKeepsKind(d.down.msg, room);
  }

  /** A child still connected: every request accepted from it is answered to it, about to be, or
      holds a slot, and its i-th answer is for its i-th request, whatever the others do. */
  lemma EveryChildIsServedInOrder(vehicleRoom: string, who: VehicleIdentity, steps: seq<Step>, s: System, c: ConnId)
    requires Disciplined(steps, who) && Reaches(Init(vehicleRoom, who), steps, s) && c in s.gw.conns
    ensures var mine := OwnedBy(Requests(s.sent), c);
            var got := AnsweredTo(s.delivered, c) + InHand(s.handing, s.handed, c);
            && got <= mine
            && |mine| == |got| + SlotsOf(s.gw.pending, c)
  {
    InitInv(vehicleRoom, who);
    RunKeeps(Init(vehicleRoom, who), steps, s);
    QueueSplitsOwned(Requests(s.sent), s.answered, s.gw.pending, c);
  }

  lemma QueueSplitsOwned(reqs: seq<Sent>, answered: seq<Answer>, pending: seq<ConnId>, c: ConnId)
    requires QueueInv(reqs, answered, pending)
    ensures OwnedBy(reqs[..|answered|], c) <= OwnedBy(reqs, c)
    ensures |OwnedBy(reqs, c)| == |OwnedBy(reqs[..|answered|], c)| + SlotsOf(pending, c)
  {
    var k := |answered|;
    assert reqs == reqs[..k] + reqs[k..];
    OwnedBySplit(reqs[..k], reqs[k..], c);
    SlotsCountOwners(pending, reqs[k..], c);
  }

  /** Whenever the loop is about to join again nothing of the old session is left, and no message
      held anywhere was accepted in an earlier session or is a child's join or leave. */
  lemma NothingCrossesSessions(vehicleRoom: string, who: VehicleIdentity, steps: seq<Step>, s: System)
    requires Disciplined(steps, who) && Reaches(Init(vehicleRoom, who), steps, s)
    ensures s.phase.Connecting? ==>
              s.gw.pending == [] && s.channel == [] && s.gw.echoCache == [] && s.gw.p2pOwner == None
    ensures forall x :: x in s.channel || x in s.wireUp || x in s.sent ==>
              x.epoch == s.epoch && !x.msg.RoomJoin? && !x.msg.RoomLeave?
  {
    InitInv(vehicleRoom, who);
    RunKeeps(Init(vehicleRoom, who), steps, s);
    forall x | x in s.channel || x in s.wireUp || x in s.sent
      ensures Clean(x, s.epoch, vehicleRoom, who)
    {
      VehicleRoomIsFixed(Init(vehicleRoom, who), steps, s);
    }
  }

  lemma {:induction false} VehicleRoomIsFixed(s: System, steps: seq<Step>, t: System)
    requires Reaches(s, steps, t)
    ensures t.gw.vehicleRoom == s.gw.vehicleRoom && t.who == s.who
    decreases |steps|
  {
    if steps != [] {
      VehicleRoomIsFixed(Apply(s, steps[0]), steps[1..], t);
    }
  }

  /** The peer-to-peer owner is the last child of the session to forward an SDP or ICE message,
      while it stays connected. */
  lemma OwnerIsLastNegotiator(vehicleRoom: string, who: VehicleIdentity, steps: seq<Step>, s: System)
    requires Disciplined(steps, who) && Reaches(Init(vehicleRoom, who), steps, s)
    ensures var n := LastNegotiator(s.sent);
            s.gw.p2pOwner == if n.Some? && n.value in s.gw.conns then n else None
  {
    InitInv(vehicleRoom, who);
    RunKeeps(Init(vehicleRoom, who), steps, s);
  }

  ghost predicate AmongLast<T(!new)>(s: seq<T>, n: nat, x: T) {
    exists i :: 0 <= i < |s| && |s| - n <= i && s[i] == x
  }

  /** The echo cache is the last min(n, 256) of the n relay messages this session forwarded. */
  lemma EchoCacheIsRecent(vehicleRoom: string, who: VehicleIdentity, steps: seq<Step>, s: System)
    requires Disciplined(steps, who) && Reaches(Init(vehicleRoom, who), steps, s)
    ensures s.gw.echoCache == Suffix(Relayed(s.sent), 256)
  {
    InitInv(vehicleRoom, who);
    RunKeeps(Init(vehicleRoom, who), steps, s);
  }

  /** An arriving relay message is dropped as an echo exactly when it is among the last 256 relay
      messages this session forwarded; otherwise it goes to the negotiation's owner or to all. */
  lemma EchoWindow(vehicleRoom: string, who: VehicleIdentity, steps: seq<Step>, s: System)
    requires Disciplined(steps, who) && Reaches(Init(vehicleRoom, who), steps, s)
    requires Enabled(s, Dispatches) && IsRelay(s.wireDown[0].msg)
    ensures var msg := s.wireDown[0].msg;
            Dispatch(s).handing ==
            if AmongLast(Relayed(s.sent), 256, msg) then map[]
            else if IsNegotiation(msg) then Unicast(s.gw, s.gw.p2pOwner, msg)
            else map c | c in s.gw.conns :: RewriteRoom(msg, s.gw.conns[c].room)
  {
    EchoCacheIsRecent(vehicleRoom, who, steps, s);
    InSuffix(Relayed(s.sent), 256, s.wireDown[0].msg);
  }

  /** Who should see a message from the server, told from the history of the session alone. */
  ghost predicate Audience(s: System, down: Down, c: ConnId) {
    var msg := down.msg;
    if IsSfuResponse(msg) then down.answers.Some? && down.answers.value.owner == c
    else if IsRelay(msg) && AmongLast(Relayed(s.sent), 256, msg) then false
    else if IsNegotiation(msg) then LastNegotiator(s.sent) == Some(c)
    else !msg.ConfigPush?
  }

  lemma RoutedToItsAudience(s: System, c: ConnId)
    requires Inv(s) && Enabled(s, Dispatches)
    ensures c in Dispatch(s).handing <==> c in s.gw.conns && Audience(s, s.wireDown[0], c)
  {
    var msg := s.wireDown[0].msg;
    if IsSfuResponse(msg) {
      DispatchedResponse(s);
    } else {
      InSuffix(Relayed(s.sent), 256, msg);
    }
  }

  /** Routing is exactly that: a connected child is handed the message next on the wire if and only
      if it belongs to the audience, and then in the room it declared last. */
  lemma EveryMessageHasItsAudience(vehicleRoom: string, who: VehicleIdentity, steps: seq<Step>, s: System, c: ConnId)
    requires Disciplined(steps, who) && Reaches(Init(vehicleRoom, who), steps, s) && Enabled(s, Dispatches)
    ensures var handing := Dispatch(s).handing;
            && (c in handing <==> c in s.gw.conns && Audience(s, s.wireDown[0], c))
            && (c in handing ==> handing[c] == RewriteRoom(s.wireDown[0].msg, DeclaredRoom(steps, c)))
  {
    InitInv(vehicleRoom, who);
    RunKeeps(Init(vehicleRoom, who), steps, s);
    RoutedToItsAudience(s, c);
    TargetsAreConnected(s.gw, s.wireDown[0].msg);
    ConnsFollowTheRun(vehicleRoom, who, steps, s);
  }

  lemma InSuffix<T(!new)>(s: seq<T>, n: nat, x: T)
    ensures x in Suffix(s, n) <==> AmongLast(s, n, x)
  {
    var tail := Suffix(s, n);
    var start := |s| - |tail|;
    assert tail == s[start..];
    if i :| 0 <= i < |s| && |s| - n <= i && s[i] == x {
      assert tail[i - start] == x;
    }
    if j :| 0 <= j < |tail| && tail[j] == x {
      assert s[start + j] == x;
    }
  }

  /** A child that uses the room it declared in its last join gets that room back in the answer,
      exactly when the room is an audio room or the vehicle room is not. */
  lemma AnswersCarryTheDeclaredRoom(vehicleRoom: string, who: VehicleIdentity, steps: seq<Step>, s: System)
    requires Disciplined(steps, who) && Reaches(Init(vehicleRoom, who), steps, s) && Enabled(s, Dispatches)
    requires IsSfuResponse(s.wireDown[0].msg) && MsgRoomId(s.wireDown[0].msg).Some?
    ensures s.wireDown[0].answers.Some?
    ensures var req := s.wireDown[0].answers.value;
            var declared := DeclaredRoom(steps, req.owner);
            req.owner in s.gw.conns && MsgRoomId(req.original) == Some(declared) ==>
              && req.owner in Dispatch(s).handing
              && (MsgRoomId(Dispatch(s).handing[req.owner]) == Some(declared)
                  <==> IsAudioRoom(declared) || !IsAudioRoom(vehicleRoom))
  {
    InitInv(vehicleRoom, who);
    RunKeeps(Init(vehicleRoom, who), steps, s);
    NextResponse(s);
    DispatchedResponse(s);
    var req := s.wireDown[0].answers.value;
    RequestIsClean(s, req);
    ConnsFollowTheRun(vehicleRoom, who, steps, s);
    SessionFollowsTheRun(vehicleRoom, who, steps, s);
    if req.owner in s.gw.conns && MsgRoomId(req.original) == Some(DeclaredRoom(steps, req.owner)) {
      RoomRoundTrip(req.original, vehicleRoom, s.wireDown[0].msg, DeclaredRoom(steps, req.owner));
    }
  }

  lemma RequestIsClean(s: System, req: Sent)
    requires Inv(s) && req in Requests(s.sent)
    ensures req.msg == RewriteRoom(req.original, s.gw.vehicleRoom)
  {
    RequestsAreSent(s.sent);
    assert Clean(req, s.epoch, s.gw.vehicleRoom, s.who);
  }

  // ---- Configuration pushes ---------------------------------------------------------------

  predicate PushInv(s: System, peers: set<string>) {
    && (s.phase.Live? ==> s.gw.vehiclePeerId in peers)
    && (s.gw.pendingConfig.Some? ==>
          var push := s.gw.pendingConfig.value;
          push.ConfigPush? && push.pushRoom == s.gw.vehicleRoom && push.pushTarget in peers)
    && (forall c :: c in s.handing ==> !s.handing[c].ConfigPush?)
    && (forall d :: d in s.delivered ==> !d.msg.ConfigPush?)
  }

  lemma StepKeepsPush(s: System, step: Step, peers: set<string>)
    requires PushInv(s, peers) && Enabled(s, step)
    requires step.Connects? ==> step.peerId in peers
    ensures PushInv(Apply(s, step), peers)
  {
    var t := Apply(s, step);
    if step.Dispatches? {
      var msg := s.wireDown[0].msg;
      forall c | c in t.handing
        ensures !t.handing[c].ConfigPush?
      {
        assert !msg.ConfigPush? && t.handing[c] == RewriteRoom(msg, s.gw.conns[c].room);
      }
    }
  }

  lemma {:induction false} RunKeepsPush(s: System, steps: seq<Step>, t: System, peers: set<string>)
    requires PushInv(s, peers) && Reaches(s, steps, t)
    requires forall i :: 0 <= i < |steps| && steps[i].Connects? ==> steps[i].peerId in peers
    ensures PushInv(t, peers)
    decreases |steps|
  {
    if steps != [] {
      StepKeepsPush(s, steps[0], peers);
      RunKeepsPush(Apply(s, steps[0]), steps[1..], t, peers);
    }
  }

  /** A configuration waiting for the agent was pushed to this vehicle's room and to the peer id of
      one of its sessions, and no child is ever handed one, whatever the children send. */
  lemma PushesStayWithTheAgent(vehicleRoom: string, who: VehicleIdentity, steps: seq<Step>, s: System)
    requires Reaches(Init(vehicleRoom, who), steps, s)
    ensures s.gw.pendingConfig.Some? ==>
              var push := s.gw.pendingConfig.value;
              && push.ConfigPush? && push.pushRoom == vehicleRoom
              && exists i :: 0 <= i < |steps| && steps[i] == Connects(push.pushTarget)
    ensures forall d :: d in s.delivered ==> !d.msg.ConfigPush?
  {
    var peers := set i | 0 <= i < |steps| && steps[i].Connects? :: steps[i].peerId;
    RunKeepsPush(Init(vehicleRoom, who), steps, s, peers);
    VehicleRoomIsFixed(Init(vehicleRoom, who), steps, s);
  }

  // ---- The discipline asked of the children is exact --------------------------------------

  predicate Misrouted(d: Delivery) {
    IsSfuResponse(d.msg) && d.down.answers.Some? && d.down.answers.value.owner != d.to
  }

  /** Children send `m` at will and otherwise only kinds that own a slot for every error they draw. */
  predicate DisciplinedBut(steps: seq<Step>, who: VehicleIdentity, m: Message) {
    forall i :: 0 <= i < |steps| && steps[i].ChildSends? ==>
      steps[i].msg == m || !DrawsUnslottedError(steps[i].msg, who)
  }

  lemma {:induction false} Extend(s: System, steps: seq<Step>, t: System, step: Step)
    requires Reaches(s, steps, t) && Enabled(t, step)
    ensures Reaches(s, steps + [step], Apply(t, step))
    decreases |steps|
  {
    if steps == [] {
      assert (steps + [step])[1..] == [];
    } else {
      assert (steps + [step])[1..] == steps[1..] + [step];
      Extend(Apply(s, steps[0]), steps[1..], t, step);
    }
  }

  const QUERY := SfuStatsRequest(Some("p"), None)

  /** Two children connected to a gateway in session. */
  function Pair(vehicleRoom: string, who: VehicleIdentity): System {
    Init(vehicleRoom, who).(
      gw := GatewayState(map[1 := Conn(1, ""), 2 := Conn(2, "")], 3, [], None, [], "agent", true, vehicleRoom, None),
      phase := Live, epoch := 1)
  }

  lemma PairIsReachable(vehicleRoom: string, who: VehicleIdentity, m: Message) returns (steps: seq<Step>)
    ensures Reaches(Init(vehicleRoom, who), steps, Pair(vehicleRoom, who)) && DisciplinedBut(steps, who, m)
  {
    var s0 := Init(vehicleRoom, who);
    var s := Take(s0, [], s0, Connects("agent"), who, m);
    s := Take(s0, [] + [Connects("agent")], s, Accepts, who, m);
    s := Take(s0, [] + [Connects("agent")] + [Accepts], s, Accepts, who, m);
    steps := [] + [Connects("agent")] + [Accepts] + [Accepts];
    assert s.gw.conns == map[1 := Conn(1, ""), 2 := Conn(2, "")];
  }

  /** Child 1 has sent `m`, which owns no slot. */
  function Said(vehicleRoom: string, who: VehicleIdentity, m: Message): System {
    var x := Sent(1, 1, m, RewriteRoom(m, vehicleRoom));
    Pair(vehicleRoom, who).(channel := [x], sent := [x])
  }

  lemma UnslottedLeavesNoTrace(st: GatewayState, c: ConnId, m: Message, who: VehicleIdentity)
    requires st.joined && DrawsUnslottedError(m, who)
    ensures Upstream(st, c, m) == (st, Forward(RewriteRoom(m, st.vehicleRoom)))
  {
    RewriteKeepsKind(m, st.vehicleRoom);
  }

  lemma SaidIsReachable(vehicleRoom: string, who: VehicleIdentity, m: Message) returns (steps: seq<Step>)
    requires DrawsUnslottedError(m, who)
    ensures Reaches(Init(vehicleRoom, who), steps, Said(vehicleRoom, who, m)) && DisciplinedBut(steps, who, m)
  {
    var s := Pair(vehicleRoom, who);
    var before := PairIsReachable(vehicleRoom, who, m);
    UnslottedLeavesNoTrace(s.gw, 1, m, who);
    var t := Take(Init(vehicleRoom, who), before, s, ChildSends(1, m), who, m);
    assert t == Said(vehicleRoom, who, m);
    steps := before + [ChildSends(1, m)];
  }

  /** Then child 2 has sent a stats query: only the query owns a slot. */
  function Asked(vehicleRoom: string, who: VehicleIdentity, m: Message): System {
    var x, q := Sent(1, 1, m, RewriteRoom(m, vehicleRoom)), Sent(1, 2, QUERY, QUERY);
    var s := Said(vehicleRoom, who, m);
    s.(gw := s.gw.(pending := [2]), channel := [x, q], sent := [x, q])
  }

  lemma AskedIsReachable(vehicleRoom: string, who: VehicleIdentity, m: Message) returns (steps: seq<Step>)
    requires DrawsUnslottedError(m, who)
    ensures Reaches(Init(vehicleRoom, who), steps, Asked(vehicleRoom, who, m)) && DisciplinedBut(steps, who, m)
  {
    var before := SaidIsReachable(vehicleRoom, who, m);
    var t := Take(Init(vehicleRoom, who), before, Said(vehicleRoom, who, m), ChildSends(2, QUERY), who, m);
    assert t == Asked(vehicleRoom, who, m);
    steps := before + [ChildSends(2, QUERY)];
  }

  const DENIAL := Error(4031, "")

  lemma DeniedIsReachable(vehicleRoom: string, who: VehicleIdentity, m: Message) returns (steps: seq<Step>)
    requires DrawsUnslottedError(m, who)
    ensures Reaches(Init(vehicleRoom, who), steps, Denied(vehicleRoom, who, m)) && DisciplinedBut(steps, who, m)
  {
    var s0, asked := Init(vehicleRoom, who), Asked(vehicleRoom, who, m);
    var before := AskedIsReachable(vehicleRoom, who, m);
    UnslottedStaysUnslotted(m, vehicleRoom, who);
    var s := Take(s0, before, asked, Transmits, who, m);
    assert s == asked.(channel := asked.channel[1..], wireUp := [asked.channel[0]]);
    s := Take(s0, before + [Transmits], s, ServerObjects(DENIAL), who, m);
    steps := before + [Transmits] + [ServerObjects(DENIAL)];
    assert s == Denied(vehicleRoom, who, m);
  }

  lemma UnslottedStaysUnslotted(m: Message, room: string, who: VehicleIdentity)
    requires DrawsUnslottedError(m, who)
    ensures DrawsUnslottedError(RewriteRoom(m, room), who)
  {
  }

  /** The server has taken `m` off the wire and answered it with an error. */
  function Denied(vehicleRoom: string, who: VehicleIdentity, m: Message): System {
    var asked := Asked(vehicleRoom, who, m);
    asked.(channel := asked.channel[1..], wireDown := [Down(DENIAL, Some(asked.channel[0]))])
  }

  /** The server's error for `m` then pops child 2's slot. */
  lemma UnslottedErrorMisroutes(vehicleRoom: string, who: VehicleIdentity, m: Message) returns (steps: seq<Step>, s: System)
    requires DrawsUnslottedError(m, who)
    ensures Reaches(Init(vehicleRoom, who), steps, s) && DisciplinedBut(steps, who, m)
    ensures |s.delivered| == 1 && Misrouted(s.delivered[0])
  {
    var before := DeniedIsReachable(vehicleRoom, who, m);
    s := Take(Init(vehicleRoom, who), before, Denied(vehicleRoom, who, m), Dispatches, who, m);
    s := Take(Init(vehicleRoom, who), before + [Dispatches], s, Hands(2), who, m);
    steps := before + [Dispatches] + [Hands(2)];
  }

  lemma Take(s0: System, steps: seq<Step>, s: System, step: Step, who: VehicleIdentity, m: Message) returns (t: System)
    requires Reaches(s0, steps, s) && Enabled(s, step)
    requires DisciplinedBut(steps, who, m)
    requires step.ChildSends? ==> step.msg == m || !DrawsUnslottedError(step.msg, who)
    ensures t == Apply(s, step) && Reaches(s0, steps + [step], t)
    ensures DisciplinedBut(steps + [step], who, m)
  {
    Extend(s0, steps, s, step);
    t := Apply(s, step);
  }

  /** Some run in which children may send `m` delivers a response to a child that did not ask for
      it exactly when `m` is a data-channel request, a configuration push or, from a device's session,
      an emergency command. */
  lemma DisciplineIsExact(vehicleRoom: string, who: VehicleIdentity, m: Message)
    ensures (m.CreateDataProducer? || m.ConsumeData? || m.ConfigPush? || (m.EmergencyCommand? && who.Device?))
            <==> exists steps, s, d ::
                   && Reaches(Init(vehicleRoom, who), steps, s) && DisciplinedBut(steps, who, m)
                   && d in s.delivered && Misrouted(d)
  {
    if DrawsUnslottedError(m, who) {
      var steps, s := UnslottedErrorMisroutes(vehicleRoom, who, m);
      assert s.delivered[0] in s.delivered;
    } else {
      forall steps, s, d | Reaches(Init(vehicleRoom, who), steps, s) && DisciplinedBut(steps, who, m) && d in s.delivered
        ensures !Misrouted(d)
      {
        if IsSfuResponse(d.msg) {
          ResponsesReachTheirRequester(vehicleRoom, who, steps, s, d);
        }
      }
    }
  }
}
