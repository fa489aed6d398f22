/** The gateway as a whole: any number of children, the locked state, the upstream channel,
    one WebSocket session at a time to a sequential server, and the loop that tears a lost
    session down and joins again. Every lock section, channel receive and server action is
    its own step, so a run is an interleaving. */
module GatewaySystem {
  import opened Wrappers
  import opened Messages
  import opened GatewaySpec
  import opened Roles

  /** A message accepted from `owner` in session number `epoch`: as the child wrote it and as it was forwarded. */
  datatype Sent = Sent(epoch: nat, owner: ConnId, original: Message, msg: Message)

  /** A message from the server; `answers` is the request the server had in hand when it wrote it. */
  datatype Down = Down(msg: Message, answers: Option<Sent>)

  /** One popped slot: the request truly answered, the answer, and the connection popped for it. */
  datatype Answer = Answer(req: Sent, resp: Message, slot: ConnId)

  datatype Delivery = Delivery(to: ConnId, msg: Message, down: Down)

  /** Where `remote_loop` stands. In `Lost` the session is over but the state is not yet reset. */
  datatype Phase = Connecting | Live | Lost | Draining

  /** As what the agent joins the vehicle room: a host is a device or, without credentials, legacy. */
  type VehicleIdentity = who: Identity | !HostJoinDenied(who) witness Legacy

  datatype System = System(
    who: VehicleIdentity,
    gw: GatewayState,
    phase: Phase,
    epoch: nat,
    channel: seq<Sent>,
    wireUp: seq<Sent>,
    wireDown: seq<Down>,
    // what `downstream` returned and `run_session` has not handed out yet
    handing: map<ConnId, Message>,
    handed: Down,
    // history of the session: accepted, answered, delivered
    sent: seq<Sent>,
    answered: seq<Answer>,
    delivered: seq<Delivery>)

  datatype Step =
    | Accepts
    | ChildSends(c: ConnId, msg: Message)
    | AgentReports(msg: Message)
    | AgentTakesPush
    | Disconnects(c: ConnId)
    | Connects(peerId: string)
    | Transmits
    | ServerAnswers(resp: Message)
    | ServerSkips
    | ServerObjects(resp: Message)
    | ServerPushes(msg: Message)
    | Dispatches
    | Hands(c: ConnId)
    | SessionEnds
    | Resets
    | Drains
    | Drained

  function Init(vehicleRoom: string, who: VehicleIdentity): System {
    System(who, Initial(vehicleRoom), Connecting, 0, [], [], [], map[], Down(Error(0, ""), None), [], [], [])
  }

  /** Kinds for which the server may send an `Error` although the gateway keeps no slot for them. An
      emergency command is refused to a device only. */
  predicate DrawsUnslottedError(m: Message, who: VehicleIdentity) {
    || m.CreateDataProducer? || m.ConsumeData? || m.ConfigPush?
    || (m.EmergencyCommand? && EmergencyDenied(who, None))
  }

  predicate Enabled(s: System, step: Step) {
    match step
    case Accepts => true
    case ChildSends(c, _) => c in s.gw.conns
    case AgentReports(msg) => s.gw.joined && msg.StatusReport?
    case AgentTakesPush => true
    case Disconnects(c) => c in s.gw.conns
    case Connects(_) => s.phase.Connecting?
    case Transmits => s.phase.Live? && s.handing == map[] && s.channel != []
    case ServerAnswers(resp) => s.phase.Live? && s.wireUp != [] && Answers(s.wireUp[0].msg, resp)
    case ServerSkips => s.phase.Live? && s.wireUp != [] && !IsSfuRequest(s.wireUp[0].msg)
    case ServerObjects(resp) =>
      s.phase.Live? && s.wireUp != [] && DrawsUnslottedError(s.wireUp[0].msg, s.who) && resp.Error?
    case ServerPushes(msg) => s.phase.Live? && !IsSfuResponse(msg)
    case Dispatches => s.phase.Live? && s.handing == map[] && s.wireDown != []
    case Hands(c) => c in s.handing
    case SessionEnds => s.phase.Live? && s.handing == map[]
    case Resets => s.phase.Lost?
    case Drains => s.phase.Draining? && s.channel != []
    case Drained => s.phase.Draining? && s.channel == []
  }

  function Apply(s: System, step: Step): System
    requires Enabled(s, step)
  {
    match step
    case Accepts => s.(gw := Accept(s.gw))
    case ChildSends(c, msg) =>
      var (st, action) := Upstream(s.gw, c, msg);
      if action.Forward? then
        var x := Sent(s.epoch, c, msg, action.msg);
        s.(gw := st, channel := s.channel + [x], sent := s.sent + [x])
      else s.(gw := st)
    case AgentReports(msg) => s.(channel := s.channel + [Sent(s.epoch, AGENT, msg, msg)])
    case AgentTakesPush => s.(gw := TakePush(s.gw))
    case Disconnects(c) => s.(gw := RemoveConn(s.gw, c))
    case Connects(peerId) => s.(gw := Joined(s.gw, peerId), phase := Live, epoch := s.epoch + 1)
    case Transmits => s.(channel := s.channel[1..], wireUp := s.wireUp + [s.channel[0]])
    case ServerAnswers(resp) => Reply(s, resp)
    case ServerSkips => s.(wireUp := s.wireUp[1..])
    case ServerObjects(resp) => Reply(s, resp)
    case ServerPushes(msg) => s.(wireDown := s.wireDown + [Down(msg, None)])
    case Dispatches => Dispatch(s)
    case Hands(c) => Hand(s, c)
    case SessionEnds => s.(phase := Lost, wireUp := [], wireDown := [])
    case Resets => s.(gw := ResetRemote(s.gw), phase := Draining, sent := [], answered := [], delivered := [])
    case Drains => s.(channel := s.channel[1..])
    case Drained => s.(phase := Connecting)
  }

  function Reply(s: System, resp: Message): System
    requires s.wireUp != []
  {
    s.(wireUp := s.wireUp[1..], wireDown := s.wireDown + [Down(resp, Some(s.wireUp[0]))])
  }

  function Dispatch(s: System): System
    requires s.wireDown != []
  {
    var down := s.wireDown[0];
    var (st, targets) := Downstream(s.gw, down.msg);
    var popped := IsSfuResponse(down.msg) && s.gw.pending != [] && down.answers.Some?;
    s.(gw := st, wireDown := s.wireDown[1..], handing := targets, handed := down,
       answered := if popped then s.answered + [Answer(down.answers.value, down.msg, s.gw.pending[0])]
                   else s.answered)
  }

  /** A second lock section looks the target up again: it may have gone since. */
  function Hand(s: System, c: ConnId): System
    requires c in s.handing
  {
    s.(handing := s.handing - {c},
       delivered := if c in s.gw.conns then s.delivered + [Delivery(c, s.handing[c], s.handed)] else s.delivered)
  }

  predicate Reaches(s: System, steps: seq<Step>, t: System)
    decreases |steps|
  {
    if steps == [] then s == t
    else Enabled(s, steps[0]) && Reaches(Apply(s, steps[0]), steps[1..], t)
  }

  /** Children keep to kinds that never draw an error the gateway holds no slot for. */
  predicate Disciplined(steps: seq<Step>, who: VehicleIdentity) {
    forall i :: 0 <= i < |steps| && steps[i].ChildSends? ==> !DrawsUnslottedError(steps[i].msg, who)
  }

  // ---- What the history says -------------------------------------------------------------

  /** The requests among `xs`, in order. */
  function Requests(xs: seq<Sent>): seq<Sent> {
    if xs == [] then []
    else
      var last := xs[|xs| - 1];
      Requests(xs[..|xs| - 1]) + (if IsSfuRequest(last.msg) then [last] else [])
  }

  /** The requests answered by messages still on the wire down, in order. */
  function Pledged(xs: seq<Down>): seq<Sent> {
    if xs == [] then []
    else
      var last := xs[|xs| - 1];
      Pledged(xs[..|xs| - 1]) + (if last.answers.Some? then [last.answers.value] else [])
  }

  function Relayed(xs: seq<Sent>): seq<Message> {
    if xs == [] then []
    else
      var last := xs[|xs| - 1];
      Relayed(xs[..|xs| - 1]) + (if IsRelay(last.msg) then [last.msg] else [])
  }

  function OwnedBy(xs: seq<Sent>, c: ConnId): seq<Sent> {
    if xs == [] then []
    else
      var last := xs[|xs| - 1];
      OwnedBy(xs[..|xs| - 1], c) + (if last.owner == c then [last] else [])
  }

  /** The requests whose answers were put on `c`'s queue, in delivery order. */
  function AnsweredTo(xs: seq<Delivery>, c: ConnId): seq<Sent> {
    if xs == [] then []
    else
      var last := xs[|xs| - 1];
      AnsweredTo(xs[..|xs| - 1], c)
      + (if last.to == c && last.down.answers.Some? then [last.down.answers.value] else [])
  }

  function SlotsOf(pending: seq<ConnId>, c: ConnId): nat {
    if pending == [] then 0
    else SlotsOf(pending[..|pending| - 1], c) + (if pending[|pending| - 1] == c then 1 else 0)
  }

  function LastNegotiator(xs: seq<Sent>): (n: Option<ConnId>)
    ensures n.Some? ==> exists x :: x in xs && x.owner == n.value
  {
    if xs == [] then None
    else
      var last := xs[|xs| - 1];
      if IsNegotiation(last.msg) then Some(last.owner) else LastNegotiator(xs[..|xs| - 1])
  }

  /** Requests whose answers have been popped off the queue. */
  function Popped(s: System): seq<Sent>
    requires |s.answered| <= |Requests(s.sent)|
  {
    Requests(s.sent)[..|s.answered|]
  }

  /** Requests accepted in this session and not yet popped. */
  function Outstanding(s: System): seq<Sent>
    requires |s.answered| <= |Requests(s.sent)|
  {
    Requests(s.sent)[|s.answered|..]
  }

  /** The request whose answer `run_session` is about to hand to `c`, if any. */
  function InHand(handing: map<ConnId, Message>, handed: Down, c: ConnId): seq<Sent> {
    if c in handing && handed.answers.Some? then [handed.answers.value] else []
  }

  // ---- The invariant, one conjunct per concern --------------------------------------------

  ghost predicate IdsInv(s: System) {
    && WellFormed(s.gw)
    && (forall x :: x in s.sent ==> AGENT < x.owner < s.gw.nextId)
    && (forall c :: c in s.handing ==> c < s.gw.nextId)
    && (forall d :: d in s.delivered ==> d.to < s.gw.nextId)
  }

  predicate PhaseInv(s: System) {
    && (s.gw.joined <==> s.phase.Live? || s.phase.Lost?)
    && (!s.gw.joined ==> s.sent == [] && s.answered == [] && s.delivered == [])
    && (s.phase.Connecting? ==> s.channel == [])
    && (!s.phase.Live? ==> s.wireUp == [] && s.wireDown == [] && s.handing == map[])
  }

  /** A message this session's gateway may hold: stamped with the session, rewritten for the
      vehicle room, and never a join or leave. */
  predicate Clean(x: Sent, epoch: nat, vehicleRoom: string, who: VehicleIdentity) {
    && x.epoch == epoch
    && x.msg == RewriteRoom(x.original, vehicleRoom)
    && !x.msg.RoomJoin? && !x.msg.RoomLeave?
    && !DrawsUnslottedError(x.msg, who)
  }

  predicate AllClean(xs: seq<Sent>, epoch: nat, vehicleRoom: string, who: VehicleIdentity) {
    forall x :: x in xs ==> Clean(x, epoch, vehicleRoom, who)
  }

  /** The i-th popped slot belonged to, and its answer was for, the i-th request; the slots
      still queued are the owners of the requests not popped yet. */
  predicate QueueInv(reqs: seq<Sent>, answered: seq<Answer>, pending: seq<ConnId>) {
    && |reqs| == |answered| + |pending|
    && (forall i :: 0 <= i < |answered| ==>
          answered[i].req == reqs[i] && answered[i].slot == reqs[i].owner
          && Answers(reqs[i].msg, answered[i].resp))
    && (forall i :: 0 <= i < |pending| ==> pending[i] == reqs[|answered| + i].owner)
  }

  /** A message from the server is a queue-routed response exactly when it answers a request. */
  predicate Attributed(d: Down) {
    && (d.answers.Some? <==> IsSfuResponse(d.msg))
    && (d.answers.Some? ==> Answers(d.answers.value.msg, d.msg))
  }

  /** The outstanding requests are, in order, those with answers on the wire down, those on the
      wire up, and those still in the channel. */
  predicate WireInv(outstanding: seq<Sent>, down: seq<Down>, up: seq<Sent>, channel: seq<Sent>) {
    && outstanding == Pledged(down) + Requests(up) + Requests(channel)
    && (forall d :: d in down ==> Attributed(d))
  }

  predicate EchoInv(sent: seq<Sent>, echoCache: seq<Message>) {
    echoCache == Suffix(Relayed(sent), ECHO_CACHE_CAP)
  }

  predicate OwnerInv(sent: seq<Sent>, conns: set<ConnId>, p2pOwner: Option<ConnId>) {
    var n := LastNegotiator(sent);
    p2pOwner == if n.Some? && n.value in conns then n else None
  }

  ghost predicate FaithfulTo(to: ConnId, msg: Message, down: Down, epoch: nat) {
    && Attributed(down)
    && (exists room :: msg == RewriteRoom(down.msg, room))
    && (down.answers.Some? ==> down.answers.value.owner == to && down.answers.value.epoch == epoch)
  }

  ghost predicate FaithfulInv(delivered: seq<Delivery>, handing: map<ConnId, Message>, handed: Down, epoch: nat) {
    && (forall d :: d in delivered ==> FaithfulTo(d.to, d.msg, d.down, epoch))
    && (forall c :: c in handing ==> FaithfulTo(c, handing[c], handed, epoch))
  }

  /** A connected child has been given, or is about to be given, exactly the answers to its own
      popped requests, in order. */
  ghost predicate ShareInv(conns: set<ConnId>, delivered: seq<Delivery>, handing: map<ConnId, Message>,
                           handed: Down, popped: seq<Sent>) {
    forall c :: c in conns ==> AnsweredTo(delivered, c) + InHand(handing, handed, c) == OwnedBy(popped, c)
  }

  ghost predicate Inv(s: System) {
    && IdsInv(s)
    && PhaseInv(s)
    && AllClean(s.sent, s.epoch, s.gw.vehicleRoom, s.who)
    && AllClean(s.channel, s.epoch, s.gw.vehicleRoom, s.who)
    && AllClean(s.wireUp, s.epoch, s.gw.vehicleRoom, s.who)
    && QueueInv(Requests(s.sent), s.answered, s.gw.pending)
    && (s.phase.Live? ==> WireInv(Outstanding(s), s.wireDown, s.wireUp, s.channel))
    && EchoInv(s.sent, s.gw.echoCache)
    && OwnerInv(s.sent, s.gw.conns.Keys, s.gw.p2pOwner)
    && FaithfulInv(s.delivered, s.handing, s.handed, s.epoch)
    && ShareInv(s.gw.conns.Keys, s.delivered, s.handing, s.handed, Popped(s))
  }

  // ---- Append and split lemmas about the history -----------------------------------------

  lemma Appended(xs: seq<Sent>, x: Sent)
    ensures Requests(xs + [x]) == Requests(xs) + (if IsSfuRequest(x.msg) then [x] else [])
    ensures Relayed(xs + [x]) == Relayed(xs) + (if IsRelay(x.msg) then [x.msg] else [])
    ensures LastNegotiator(xs + [x]) == if IsNegotiation(x.msg) then Some(x.owner) else LastNegotiator(xs)
    ensures forall c :: OwnedBy(xs + [x], c) == OwnedBy(xs, c) + (if x.owner == c then [x] else [])
  {
    assert (xs + [x])[..|xs|] == xs;
  }

  lemma {:induction false} RequestsSplit(a: seq<Sent>, b: seq<Sent>)
    ensures Requests(a + b) == Requests(a) + Requests(b)
    decreases |b|
  {
    if b == [] {
      assert a + b == a;
    } else {
      var init, last := b[..|b| - 1], b[|b| - 1];
      assert a + b == (a + init) + [last] && b == init + [last];
      Appended(a + init, last);
      Appended(init, last);
      RequestsSplit(a, init);
    }
  }

  lemma PledgedAppended(xs: seq<Down>, d: Down)
    ensures Pledged(xs + [d]) == Pledged(xs) + (if d.answers.Some? then [d.answers.value] else [])
  {
    assert (xs + [d])[..|xs|] == xs;
  }

  lemma {:induction false} PledgedSplit(a: seq<Down>, b: seq<Down>)
    ensures Pledged(a + b) == Pledged(a) + Pledged(b)
    decreases |b|
  {
    if b == [] {
      assert a + b == a;
    } else {
      var init, last := b[..|b| - 1], b[|b| - 1];
      assert (a + b)[..|a + b| - 1] == a + init;
      PledgedSplit(a, init);
    }
  }

  lemma {:induction false} RequestsHead(xs: seq<Sent>)
    requires xs != []
    ensures Requests(xs) == (if IsSfuRequest(xs[0].msg) then [xs[0]] else []) + Requests(xs[1..])
  {
    assert xs == [xs[0]] + xs[1..];
    RequestsSplit([xs[0]], xs[1..]);
    Appended([], xs[0]);
  }

  lemma {:induction false} PledgedHead(xs: seq<Down>)
    requires xs != []
    ensures Pledged(xs) == (if xs[0].answers.Some? then [xs[0].answers.value] else []) + Pledged(xs[1..])
  {
    assert xs == [xs[0]] + xs[1..];
    PledgedSplit([xs[0]], xs[1..]);
    assert [xs[0]][..0] == [];
  }

  lemma {:induction false} OwnedBySplit(a: seq<Sent>, b: seq<Sent>, c: ConnId)
    ensures OwnedBy(a + b, c) == OwnedBy(a, c) + OwnedBy(b, c)
    decreases |b|
  {
    if b == [] {
      assert a + b == a;
    } else {
      var init, last := b[..|b| - 1], b[|b| - 1];
      assert a + b == (a + init) + [last] && b == init + [last];
      Appended(a + init, last);
      Appended(init, last);
      OwnedBySplit(a, init, c);
    }
  }

  /** A connection that owns nothing in `xs` selects nothing from its requests. */
  lemma {:induction false} OwnsNothing(xs: seq<Sent>, c: ConnId)
    requires forall x :: x in xs ==> x.owner != c
    ensures OwnedBy(xs, c) == []
    decreases |xs|
  {
    if xs != [] {
      OwnsNothing(xs[..|xs| - 1], c);
    }
  }

  lemma {:induction false} RequestsAreSent(xs: seq<Sent>)
    ensures forall x :: x in Requests(xs) ==> x in xs && IsSfuRequest(x.msg)
    decreases |xs|
  {
    if xs != [] {
      RequestsAreSent(xs[..|xs| - 1]);
    }
  }

  lemma {:induction false} SlotsCountOwners(pending: seq<ConnId>, xs: seq<Sent>, c: ConnId)
    requires |pending| == |xs|
    requires forall i :: 0 <= i < |xs| ==> pending[i] == xs[i].owner
    ensures SlotsOf(pending, c) == |OwnedBy(xs, c)|
    decreases |xs|
  {
    if xs != [] {
      SlotsCountOwners(pending[..|xs| - 1], xs[..|xs| - 1], c);
    }
  }

  /** Trimming before or after an append keeps the same window. */
  lemma SuffixAppend<T>(s: seq<T>, x: T, n: nat)
    requires n > 0
    ensures Suffix(Suffix(s, n) + [x], n) == Suffix(s + [x], n)
  {
  }
}
