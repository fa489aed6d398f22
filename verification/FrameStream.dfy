/** The latest-slot frame stream (frame.rs): deliverers replace the frame in the slot and notify;
    receivers register for the next notification, then look at the slot, then at the shutdown
    flag, then park. Frames are numbered by the order in which they were stored. */
module FrameStream {
  import opened Wrappers

  type FrameNo = nat
  type TaskId = nat

  /** A producer between its store and its notification. */
  datatype Producer = Delivering | Closing

  /** One call of `recv`. `notified` tells whether a notification has come since it registered. */
  datatype Receiver =
    | Registered(notified: bool)
    | Looked(notified: bool)
    | Parked(notified: bool)
    | Returned(frame: Option<FrameNo>)

  datatype Stream = Stream(
    slot: Option<FrameNo>,
    shutdown: bool,
    producers: map<TaskId, Producer>,
    receivers: map<TaskId, Receiver>,
    // history: how many frames were stored, and which were taken, in order
    stored: nat,
    taken: seq<FrameNo>)

  datatype Step =
    | Stores(p: TaskId)
    | SetsShutdown(p: TaskId)
    | Notifies(p: TaskId)
    | Calls(r: TaskId)
    | Looks(r: TaskId)
    | ChecksShutdown(r: TaskId)
    | Wakes(r: TaskId)
    | Abandons(r: TaskId)

  const EmptyStream := Stream(None, false, map[], map[], 0, [])

  predicate Enabled(s: Stream, step: Step) {
    match step
    case Stores(p) => p !in s.producers
    case SetsShutdown(p) => p !in s.producers
    case Notifies(p) => p in s.producers
    case Calls(r) => r !in s.receivers || s.receivers[r].Returned?
    case Looks(r) => r in s.receivers && s.receivers[r].Registered?
    case ChecksShutdown(r) => r in s.receivers && s.receivers[r].Looked?
    case Wakes(r) => r in s.receivers && s.receivers[r].Parked? && s.receivers[r].notified
    case Abandons(r) => r in s.receivers
  }

  function Notified(r: Receiver): Receiver {
    match r
    case Registered(_) => Registered(true)
    case Looked(_) => Looked(true)
    case Parked(_) => Parked(true)
    case Returned(f) => Returned(f)
  }

  function Apply(s: Stream, step: Step): Stream
    requires Enabled(s, step)
  {
    match step
    case Stores(p) =>
      s.(slot := Some(s.stored), stored := s.stored + 1, producers := s.producers[p := Delivering])
    case SetsShutdown(p) => s.(shutdown := true, producers := s.producers[p := Closing])
    case Notifies(p) =>
      s.(producers := s.producers - {p}, receivers := map r | r in s.receivers :: Notified(s.receivers[r]))
    case Calls(r) => s.(receivers := s.receivers[r := Registered(false)])
    case Looks(r) =>
      if s.slot.Some? then
        s.(slot := None, taken := s.taken + [s.slot.value], receivers := s.receivers[r := Returned(s.slot)])
      else s.(receivers := s.receivers[r := Looked(s.receivers[r].notified)])
    case ChecksShutdown(r) =>
      s.(receivers := s.receivers[r := if s.shutdown then Returned(None) else Parked(s.receivers[r].notified)])
    case Wakes(r) => s.(receivers := s.receivers[r := Registered(false)])
    case Abandons(r) => s.(receivers := s.receivers - {r})
  }

  predicate Reaches(s: Stream, steps: seq<Step>, t: Stream)
    decreases |steps|
  {
    if steps == [] then s == t
    else Enabled(s, steps[0]) && Reaches(Apply(s, steps[0]), steps[1..], t)
  }

  predicate InFlight(s: Stream, kind: Producer) {
    exists p :: p in s.producers && s.producers[p] == kind
  }

  /** A receiver past its look at the slot and not notified is owed a notification for anything
      that turned up in the slot since, and once past the flag, for the shutdown. */
  predicate WakeInv(s: Stream) {
    forall r :: r in s.receivers ==>
      && (s.receivers[r] == Looked(false) || s.receivers[r] == Parked(false) ==>
            s.slot.Some? ==> InFlight(s, Delivering))
      && (s.receivers[r] == Parked(false) ==> s.shutdown ==> InFlight(s, Closing))
      && (s.receivers[r] == Returned(None) ==> s.shutdown)
  }

  /** The slot holds the newest frame or nothing; frames are taken in order, none twice. */
  predicate SlotInv(s: Stream) {
    && (s.slot.Some? ==> s.slot.value + 1 == s.stored)
    && (forall i, j :: 0 <= i < j < |s.taken| ==> s.taken[i] < s.taken[j])
    && (forall i :: 0 <= i < |s.taken| ==> s.taken[i] < s.stored)
    && (forall i :: 0 <= i < |s.taken| && s.slot.Some? ==> s.taken[i] < s.slot.value)
  }

  lemma StepKeepsWake(s: Stream, step: Step)
    requires WakeInv(s) && Enabled(s, step)
    ensures WakeInv(Apply(s, step))
  {
    var t := Apply(s, step);
    if step.Stores? || step.SetsShutdown? {
      assert t.producers[step.p] == if step.Stores? then Delivering else Closing;
      forall kind | InFlight(s, kind)
        ensures InFlight(t, kind)
      {
        var p :| p in s.producers && s.producers[p] == kind;
        assert t.producers[p] == kind;
      }
    }
  }

  lemma {:induction false} RunKeeps(s: Stream, steps: seq<Step>, t: Stream)
    requires WakeInv(s) && SlotInv(s) && Reaches(s, steps, t)
    ensures WakeInv(t) && SlotInv(t)
    decreases |steps|
  {
    if steps != [] {
      StepKeepsWake(s, steps[0]);
      RunKeeps(Apply(s, steps[0]), steps[1..], t);
    }
  }

  /** A blocked receiver that has not been notified, with a frame or the shutdown there for it, is
      about to be: the producer concerned has stored and not yet notified. */
  lemma NoLostWakeup(steps: seq<Step>, s: Stream, r: TaskId)
    requires Reaches(EmptyStream, steps, s)
    requires r in s.receivers && s.receivers[r] == Parked(false)
    ensures s.slot.Some? ==> InFlight(s, Delivering)
    ensures s.shutdown ==> InFlight(s, Closing)
  {
    RunKeeps(EmptyStream, steps, s);
  }

  /** With every producer done, nobody sleeps on a full slot or a closed stream. */
  lemma NobodySleepsOnAFrame(steps: seq<Step>, s: Stream, r: TaskId)
    requires Reaches(EmptyStream, steps, s) && s.producers == map[] && (s.slot.Some? || s.shutdown)
    requires r in s.receivers && s.receivers[r].Parked?
    ensures Enabled(s, Wakes(r))
  {
    RunKeeps(EmptyStream, steps, s);
  }

  /** What a receiver takes is the frame stored last, and no frame is taken twice. */
  lemma TakesTheNewestOnce(steps: seq<Step>, s: Stream, r: TaskId)
    requires Reaches(EmptyStream, steps, s) && Enabled(s, Looks(r)) && s.slot.Some?
    ensures Apply(s, Looks(r)).receivers[r] == Returned(s.slot)
    ensures s.slot.value == s.stored - 1 && s.slot.value !in s.taken
    ensures forall i, j :: 0 <= i < j < |s.taken| ==> s.taken[i] < s.taken[j]
  {
    RunKeeps(EmptyStream, steps, s);
  }

  lemma NoneOnlyAfterShutdown(steps: seq<Step>, s: Stream, r: TaskId)
    requires Reaches(EmptyStream, steps, s) && r in s.receivers && s.receivers[r] == Returned(None)
    ensures s.shutdown
  {
    RunKeeps(EmptyStream, steps, s);
  }

  /** The last delivery or look of the steps was a delivery, so its frame is still in the slot. */
  predicate LeavesAFrame(steps: seq<Step>) {
    steps != [] &&
    var last := steps[|steps| - 1];
    last.Stores? || (!last.Looks? && LeavesAFrame(steps[..|steps| - 1]))
  }

  lemma {:induction false} SlotTellsTheLastTouch(s: Stream, steps: seq<Step>, t: Stream)
    requires Reaches(s, steps, t) && s.slot.None?
    ensures t.slot.Some? <==> LeavesAFrame(steps)
    decreases |steps|
  {
    if steps != [] {
      var init, last := steps[..|steps| - 1], steps[|steps| - 1];
      var m := Before(s, steps, t);
      SlotTellsTheLastTouch(s, init, m);
    }
  }

  lemma {:induction false} Before(s: Stream, steps: seq<Step>, t: Stream) returns (m: Stream)
    requires Reaches(s, steps, t) && steps != []
    ensures Reaches(s, steps[..|steps| - 1], m) && Enabled(m, steps[|steps| - 1]) && t == Apply(m, steps[|steps| - 1])
    decreases |steps|
  {
    var init := steps[..|steps| - 1];
    if |steps| == 1 {
      m := s;
    } else {
      m := Before(Apply(s, steps[0]), steps[1..], t);
      assert init[1..] == steps[1..][..|steps| - 2];
    }
  }

  /** A receiver that looked, found nothing and then meets the shutdown returns without a frame while
      one lies in the slot exactly when a frame was delivered after its look and not taken by another. */
  lemma ShutdownLeavesAFrameExactly(s: Stream, r: TaskId, since: seq<Step>, t: Stream)
    requires Enabled(s, Looks(r)) && s.slot.None? && Reaches(Apply(s, Looks(r)), since, t)
    requires Enabled(t, ChecksShutdown(r)) && t.shutdown
    ensures Apply(t, ChecksShutdown(r)).receivers[r] == Returned(None)
    ensures Apply(t, ChecksShutdown(r)).slot.Some? <==> LeavesAFrame(since)
  {
    SlotTellsTheLastTouch(Apply(s, Looks(r)), since, t);
  }

  /** Such a run. */
  lemma ShutdownCanLeaveAFrame() returns (steps: seq<Step>, s: Stream)
    ensures Reaches(EmptyStream, steps, s)
    ensures 0 in s.receivers && s.receivers[0] == Returned(None) && s.slot == Some(0)
  {
    steps := [Calls(0), Looks(0), Stores(1), Notifies(1), SetsShutdown(1), ChecksShutdown(0)];
    var s1 := Apply(EmptyStream, Calls(0));
    var s2 := Apply(s1, Looks(0));
    var s3 := Apply(s2, Stores(1));
    var s4 := Apply(s3, Notifies(1));
    var s5 := Apply(s4, SetsShutdown(1));
    s := Apply(s5, ChecksShutdown(0));
    assert Reaches(s, steps[6..], s);
    assert Reaches(s5, steps[5..], s);
    assert Reaches(s4, steps[4..], s);
    assert Reaches(s3, steps[3..], s);
    assert Reaches(s2, steps[2..], s);
    assert Reaches(s1, steps[1..], s);
  }
}

module StreamSlot {
  import opened Wrappers
  import opened FrameStream

  datatype Outcome = Ready(frame: Option<FrameNo>) | Pending

  function NotifiedAll(receivers: map<TaskId, Receiver>): map<TaskId, Receiver> {
    map r | r in receivers :: Notified(receivers[r])
  }

  /** `StreamInner` with the receivers its `Notify` knows of. */
  class StreamInner {
    var slot: Option<FrameNo>
    var closed: bool
    var receivers: map<TaskId, Receiver>
    var stored: nat

    constructor ()
      ensures slot == None && !closed && receivers == map[] && stored == 0
    {
      slot, closed, receivers, stored := None, false, map[], 0;
    }

    /** Replaces whatever frame was in the slot. */
    method Deliver()
      modifies this`slot, this`stored, this`receivers
      ensures slot == Some(old(stored)) && stored == old(stored) + 1
      ensures receivers == NotifiedAll(old(receivers))
    {
      slot := Some(stored);
      stored := stored + 1;
      receivers := NotifiedAll(receivers);
    }

    method Shutdown()
      modifies this`closed, this`receivers
      ensures closed && receivers == NotifiedAll(old(receivers))
    {
      closed := true;
      receivers := NotifiedAll(receivers);
    }

    /** One turn of the loop in `recv`, with nothing interleaved: register, look, check, park. */
    method Turn(r: TaskId) returns (outcome: Outcome)
      modifies this`slot, this`receivers
      ensures outcome == if old(slot).Some? then Ready(old(slot)) else if closed then Ready(None) else Pending
      ensures slot == None
      ensures receivers == old(receivers)[r := if outcome.Ready? then Returned(outcome.frame) else Parked(false)]
    {
      if slot.Some? {
        outcome := Ready(slot);
        slot := None;
      } else if closed {
        outcome := Ready(None);
      } else {
        outcome := Pending;
      }
      receivers := receivers[r := if outcome.Ready? then Returned(outcome.frame) else Parked(false)];
    }
  }

  lemma {:induction false} UninterruptedDelivery(s: Stream, p: TaskId)
    requires p !in s.producers
    ensures Reaches(s, [Stores(p), Notifies(p)],
                    s.(slot := Some(s.stored), stored := s.stored + 1, receivers := NotifiedAll(s.receivers)))
    ensures Reaches(s, [SetsShutdown(p), Notifies(p)], s.(shutdown := true, receivers := NotifiedAll(s.receivers)))
  {
    var stored, closing := Apply(s, Stores(p)), Apply(s, SetsShutdown(p));
    var delivered, closed := Apply(stored, Notifies(p)), Apply(closing, Notifies(p));
    assert delivered.producers == s.producers && closed.producers == s.producers;
    assert Reaches(delivered, [Stores(p), Notifies(p)][2..], delivered);
    assert Reaches(stored, [Stores(p), Notifies(p)][1..], delivered);
    assert Reaches(closed, [SetsShutdown(p), Notifies(p)][2..], closed);
    assert Reaches(closing, [SetsShutdown(p), Notifies(p)][1..], closed);
  }

  /** A turn is the steps of a receiver that registers, looks, and, finding no frame, checks the flag. */
  lemma UninterruptedTurn(s: Stream, r: TaskId)
    requires Enabled(s, Calls(r))
    ensures s.slot.Some? ==>
              Reaches(s, [Calls(r), Looks(r)],
                      s.(slot := None, taken := s.taken + [s.slot.value], receivers := s.receivers[r := Returned(s.slot)]))
    ensures s.slot.None? ==>
              Reaches(s, [Calls(r), Looks(r), ChecksShutdown(r)],
                      s.(receivers := s.receivers[r := if s.shutdown then Returned(None) else Parked(false)]))
  {
    var called := Apply(s, Calls(r));
    var looked := Apply(called, Looks(r));
    if s.slot.Some? {
      assert looked.receivers == s.receivers[r := Returned(s.slot)];
      assert Reaches(looked, [Calls(r), Looks(r)][2..], looked);
      assert Reaches(called, [Calls(r), Looks(r)][1..], looked);
    } else {
      var steps := [Calls(r), Looks(r), ChecksShutdown(r)];
      var checked := Apply(looked, ChecksShutdown(r));
      assert checked.receivers == s.receivers[r := if s.shutdown then Returned(None) else Parked(false)];
      assert Reaches(checked, steps[3..], checked);
      assert Reaches(looked, steps[2..], checked);
      assert Reaches(called, steps[1..], checked);
    }
  }
}
