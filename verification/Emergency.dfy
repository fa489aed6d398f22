/** The emergency latch (emergency.rs): each trigger increments an atomic counter, swaps the atomic
    latch, then appends one audit line, and any number of triggers interleave between these. */
module Emergency {
  import opened Wrappers

  type CallId = nat

  datatype Source = Dc | Local

  datatype Command = Command(source: Source, seqNo: Option<nat>)

  /** A failed append may leave a torn line behind. */
  datatype Line = Entry(command: Command, latched: bool, count: nat) | Torn

  datatype Call =
    | Entered(command: Command)
    | Counted(command: Command, count: nat)
    | Swapped(command: Command, count: nat, latched: bool)
    | Returned(command: Command, count: nat, latched: bool, audited: bool)

  datatype Actuator = Actuator(count: nat, latch: bool, audit: seq<Line>, calls: map<CallId, Call>)

  datatype Step =
    | Enters(t: CallId, command: Command)
    | Counts(t: CallId)
    | Swaps(t: CallId)
    | Appends(t: CallId)
    | FailsToAppend(t: CallId, torn: bool)

  const NewActuator := Actuator(0, false, [], map[])

  predicate Enabled(a: Actuator, step: Step) {
    match step
    case Enters(t, _) => t !in a.calls
    case Counts(t) => t in a.calls && a.calls[t].Entered?
    case Swaps(t) => t in a.calls && a.calls[t].Counted?
    case Appends(t) => t in a.calls && a.calls[t].Swapped?
    case FailsToAppend(t, _) => t in a.calls && a.calls[t].Swapped?
  }

  function Apply(a: Actuator, step: Step): Actuator
    requires Enabled(a, step)
  {
    match step
    case Enters(t, command) => a.(calls := a.calls[t := Entered(command)])
    case Counts(t) =>
      a.(count := a.count + 1, calls := a.calls[t := Counted(a.calls[t].command, a.count + 1)])
    case Swaps(t) =>
      a.(latch := true, calls := a.calls[t := Swapped(a.calls[t].command, a.calls[t].count, !a.latch)])
    case Appends(t) =>
      var c := a.calls[t];
      a.(audit := a.audit + [Entry(c.command, c.latched, c.count)],
         calls := a.calls[t := Returned(c.command, c.count, c.latched, true)])
    case FailsToAppend(t, torn) =>
      var c := a.calls[t];
      a.(audit := if torn then a.audit + [Torn] else a.audit,
         calls := a.calls[t := Returned(c.command, c.count, c.latched, false)])
  }

  predicate Reaches(a: Actuator, steps: seq<Step>, b: Actuator)
    decreases |steps|
  {
    if steps == [] then a == b
    else Enabled(a, steps[0]) && Reaches(Apply(a, steps[0]), steps[1..], b)
  }

  // ---- The invariant ---------------------------------------------------------------------

  function CountedCalls(calls: map<CallId, Call>): set<CallId> {
    set t | t in calls && !calls[t].Entered?
  }

  predicate Drew(calls: map<CallId, Call>, n: nat) {
    exists t :: t in CountedCalls(calls) && calls[t].count == n
  }

  predicate Armed(c: Call) {
    (c.Swapped? || c.Returned?) && c.latched
  }

  predicate Audited(c: Call) {
    c.Returned? && c.audited
  }

  function LinesOf(audit: seq<Line>, count: nat): nat {
    if audit == [] then 0
    else
      var last := audit[|audit| - 1];
      LinesOf(audit[..|audit| - 1], count) + (if last.Entry? && last.count == count then 1 else 0)
  }

  /** The counts handed out are 1..count, each to one call. */
  ghost predicate CountInv(a: Actuator) {
    && |CountedCalls(a.calls)| == a.count
    && (forall t :: t in CountedCalls(a.calls) ==> 1 <= a.calls[t].count <= a.count)
    && (forall t, u :: t in CountedCalls(a.calls) && u in CountedCalls(a.calls) && a.calls[t].count == a.calls[u].count
          ==> t == u)
    && (forall n :: 1 <= n <= a.count ==> Drew(a.calls, n))
  }

  /** The latch is set once some call has swapped, and the call that set it is the only armed one. */
  ghost predicate LatchInv(a: Actuator) {
    && (forall t :: t in a.calls && (a.calls[t].Swapped? || a.calls[t].Returned?) ==> a.latch)
    && (a.latch ==> exists t :: t in a.calls && Armed(a.calls[t]))
    && (forall t, u :: t in a.calls && u in a.calls && Armed(a.calls[t]) && Armed(a.calls[u]) ==> t == u)
  }

  /** A count has one line if the call that drew it audited successfully, and none otherwise. */
  ghost predicate LinesInv(a: Actuator) {
    && (forall t :: t in CountedCalls(a.calls) ==>
          LinesOf(a.audit, a.calls[t].count) == if Audited(a.calls[t]) then 1 else 0)
    && (forall n :: n > a.count ==> LinesOf(a.audit, n) == 0)
  }

  predicate TellsOf(line: Line, calls: map<CallId, Call>) {
    exists t :: t in calls && Audited(calls[t]) && line == Entry(calls[t].command, calls[t].latched, calls[t].count)
  }

  /** Every whole line tells a call's own command, count and latch. */
  predicate EntriesInv(a: Actuator) {
    forall i :: 0 <= i < |a.audit| && a.audit[i].Entry? ==> TellsOf(a.audit[i], a.calls)
  }

  lemma CountsKeepsCount(a: Actuator, t: CallId)
    requires CountInv(a) && Enabled(a, Counts(t))
    ensures CountInv(Apply(a, Counts(t)))
  {
    var b := Apply(a, Counts(t));
    assert CountedCalls(b.calls) == CountedCalls(a.calls) + {t};
    forall n | 1 <= n <= b.count
      ensures Drew(b.calls, n)
    {
      if n == b.count {
        assert b.calls[t].count == n;
      } else {
        assert Drew(a.calls, n);
        var u :| u in CountedCalls(a.calls) && a.calls[u].count == n;
        assert b.calls[u].count == n;
      }
    }
  }

  lemma OthersKeepCount(a: Actuator, step: Step)
    requires CountInv(a) && Enabled(a, step) && !step.Counts?
    ensures CountInv(Apply(a, step))
  {
    var b := Apply(a, step);
    assert CountedCalls(b.calls) == CountedCalls(a.calls);
    assert forall t :: t in CountedCalls(a.calls) ==> b.calls[t].count == a.calls[t].count;
    forall n | 1 <= n <= b.count
      ensures Drew(b.calls, n)
    {
      assert Drew(a.calls, n);
      var u :| u in CountedCalls(a.calls) && a.calls[u].count == n;
      assert b.calls[u].count == n;
    }
  }

  lemma StepKeepsCount(a: Actuator, step: Step)
    requires CountInv(a) && Enabled(a, step)
    ensures CountInv(Apply(a, step))
  {
    if step.Counts? {
      CountsKeepsCount(a, step.t);
    } else {
      OthersKeepCount(a, step);
    }
  }

  lemma StepKeepsLatch(a: Actuator, step: Step)
    requires LatchInv(a) && Enabled(a, step)
    ensures LatchInv(Apply(a, step))
  {
    var b := Apply(a, step);
    if a.latch {
      var t :| t in a.calls && Armed(a.calls[t]);
      assert Armed(b.calls[t]);
    } else if step.Swaps? {
      assert Armed(b.calls[step.t]);
    }
  }

  lemma LinesAppended(audit: seq<Line>, line: Line, n: nat)
    ensures LinesOf(audit + [line], n) == LinesOf(audit, n) + (if line.Entry? && line.count == n then 1 else 0)
  {
    assert (audit + [line])[..|audit|] == audit;
  }

  /** Appending adds a line to the count of the appending call alone, failing to none. */
  lemma AppendedLines(a: Actuator, step: Step, n: nat)
    requires Enabled(a, step) && (step.Appends? || step.FailsToAppend?)
    ensures LinesOf(Apply(a, step).audit, n)
            == LinesOf(a.audit, n) + (if step.Appends? && n == a.calls[step.t].count then 1 else 0)
  {
    var c := a.calls[step.t];
    LinesAppended(a.audit, Entry(c.command, c.latched, c.count), n);
    LinesAppended(a.audit, Torn, n);
  }

  lemma AppendKeepsLines(a: Actuator, step: Step)
    requires CountInv(a) && LinesInv(a) && Enabled(a, step) && (step.Appends? || step.FailsToAppend?)
    ensures LinesInv(Apply(a, step))
  {
    var b := Apply(a, step);
    assert step.t in CountedCalls(a.calls);
    forall t | t in CountedCalls(b.calls)
      ensures LinesOf(b.audit, b.calls[t].count) == if Audited(b.calls[t]) then 1 else 0
    {
      assert t in CountedCalls(a.calls) && b.calls[t].count == a.calls[t].count;
      AppendedLines(a, step, b.calls[t].count);
    }
    forall n: nat | n > b.count
      ensures LinesOf(b.audit, n) == 0
    {
      AppendedLines(a, step, n);
    }
  }

  lemma OthersKeepLines(a: Actuator, step: Step)
    requires CountInv(a) && LinesInv(a) && Enabled(a, step) && !step.Appends? && !step.FailsToAppend?
    ensures LinesInv(Apply(a, step))
  {
    var b := Apply(a, step);
    forall t | t in CountedCalls(b.calls)
      ensures LinesOf(b.audit, b.calls[t].count) == if Audited(b.calls[t]) then 1 else 0
    {
      if t in CountedCalls(a.calls) {
        assert b.calls[t].count == a.calls[t].count && Audited(b.calls[t]) == Audited(a.calls[t]);
      } else {
        assert b.calls[t].count == a.count + 1;
      }
    }
  }

  lemma StepKeepsLines(a: Actuator, step: Step)
    requires CountInv(a) && LinesInv(a) && Enabled(a, step)
    ensures LinesInv(Apply(a, step))
  {
    if step.Appends? || step.FailsToAppend? {
      AppendKeepsLines(a, step);
    } else {
      OthersKeepLines(a, step);
    }
  }

  lemma StepKeepsEntries(a: Actuator, step: Step)
    requires EntriesInv(a) && Enabled(a, step)
    ensures EntriesInv(Apply(a, step))
  {
    var b := Apply(a, step);
    forall i | 0 <= i < |b.audit| && b.audit[i].Entry?
      ensures TellsOf(b.audit[i], b.calls)
    {
      if i < |a.audit| {
        assert TellsOf(a.audit[i], a.calls);
        var u :| u in a.calls && Audited(a.calls[u])
                 && a.audit[i] == Entry(a.calls[u].command, a.calls[u].latched, a.calls[u].count);
        assert b.calls[u] == a.calls[u];
      } else {
        assert Audited(b.calls[step.t]);
      }
    }
  }

  lemma {:induction false} RunKeeps(a: Actuator, steps: seq<Step>, b: Actuator)
    requires CountInv(a) && LatchInv(a) && LinesInv(a) && EntriesInv(a) && Reaches(a, steps, b)
    ensures CountInv(b) && LatchInv(b) && LinesInv(b) && EntriesInv(b)
    decreases |steps|
  {
    if steps != [] {
      StepKeepsCount(a, steps[0]);
      StepKeepsLatch(a, steps[0]);
      StepKeepsLines(a, steps[0]);
      StepKeepsEntries(a, steps[0]);
      RunKeeps(Apply(a, steps[0]), steps[1..], b);
    }
  }

  // ---- What n interleaved triggers return -------------------------------------------------

  predicate AllReturned(a: Actuator) {
    forall t :: t in a.calls ==> a.calls[t].Returned?
  }

  /** The counts returned by n triggers are 1..n, one each. */
  lemma CountsAreOneToN(steps: seq<Step>, a: Actuator)
    requires Reaches(NewActuator, steps, a) && AllReturned(a)
    ensures forall t :: t in a.calls ==> 1 <= a.calls[t].count <= |a.calls|
    ensures forall n :: 1 <= n <= |a.calls| ==> Drew(a.calls, n)
    ensures forall t, u :: t in a.calls && u in a.calls && a.calls[t].count == a.calls[u].count ==> t == u
  {
    RunKeeps(NewActuator, steps, a);
    assert CountedCalls(a.calls) == a.calls.Keys;
  }

  /** Of any triggers exactly one reports that it armed the latch. */
  lemma ExactlyOneArms(steps: seq<Step>, a: Actuator)
    requires Reaches(NewActuator, steps, a) && AllReturned(a) && a.calls != map[]
    ensures a.latch
    ensures exists t :: t in a.calls && a.calls[t].latched && forall u :: u in a.calls && a.calls[u].latched ==> u == t
  {
    RunKeeps(NewActuator, steps, a);
    var any :| any in a.calls;
    var t :| t in a.calls && Armed(a.calls[t]);
    assert forall u :: u in a.calls && a.calls[u].latched ==> Armed(a.calls[u]);
  }

  /** Each trigger whose append succeeded has exactly one audit line, with its own values; the lines
      that are whole all come from such triggers. */
  lemma OneAuditLineEach(steps: seq<Step>, a: Actuator, t: CallId)
    requires Reaches(NewActuator, steps, a) && t in a.calls && a.calls[t].Returned?
    ensures LinesOf(a.audit, a.calls[t].count) == if a.calls[t].audited then 1 else 0
    ensures forall i :: 0 <= i < |a.audit| && a.audit[i].Entry? && a.audit[i].count == a.calls[t].count ==>
              a.audit[i] == Entry(a.calls[t].command, a.calls[t].latched, a.calls[t].count)
  {
    RunKeeps(NewActuator, steps, a);
    forall i | 0 <= i < |a.audit| && a.audit[i].Entry? && a.audit[i].count == a.calls[t].count
      ensures a.audit[i] == Entry(a.calls[t].command, a.calls[t].latched, a.calls[t].count)
    {
      assert TellsOf(a.audit[i], a.calls);
      var u :| u in a.calls && Audited(a.calls[u])
               && a.audit[i] == Entry(a.calls[u].command, a.calls[u].latched, a.calls[u].count);
      assert u in CountedCalls(a.calls) && t in CountedCalls(a.calls);
    }
  }

  lemma {:induction false} LatchNeverClears(a: Actuator, steps: seq<Step>, b: Actuator)
    requires Reaches(a, steps, b) && a.latch
    ensures b.latch
    decreases |steps|
  {
    if steps != [] {
      LatchNeverClears(Apply(a, steps[0]), steps[1..], b);
    }
  }

  // ---- Which trigger arms -----------------------------------------------------------------

  /** A trigger about to swap arms exactly when no trigger has swapped before it. */
  lemma ArmsExactlyWhenFirstToSwap(steps: seq<Step>, a: Actuator, t: CallId)
    requires Reaches(NewActuator, steps, a) && Enabled(a, Swaps(t))
    ensures Apply(a, Swaps(t)).calls[t].latched
            <==> forall u :: u in a.calls ==> a.calls[u].Entered? || a.calls[u].Counted?
  {
    RunKeeps(NewActuator, steps, a);
    if a.latch {
      var u :| u in a.calls && Armed(a.calls[u]);
    }
  }

  function FirstToCount(steps: seq<Step>): Option<CallId> {
    if steps == [] then None
    else if steps[0].Counts? then Some(steps[0].t)
    else FirstToCount(steps[1..])
  }

  function FirstToSwap(steps: seq<Step>): Option<CallId> {
    if steps == [] then None
    else if steps[0].Swaps? then Some(steps[0].t)
    else FirstToSwap(steps[1..])
  }

  predicate DrewOne(calls: map<CallId, Call>, t: CallId) {
    t in CountedCalls(calls) && calls[t].count == 1
  }

  /** Who draws count 1 is decided by the first `Counts` after a state in which nobody has counted. */
  lemma {:induction false} FirstCountIsOne(a: Actuator, steps: seq<Step>, b: Actuator, t: CallId)
    requires CountInv(a) && Reaches(a, steps, b)
    ensures DrewOne(b.calls, t) <==> if a.count == 0 then FirstToCount(steps) == Some(t) else DrewOne(a.calls, t)
    decreases |steps|
  {
    if steps != [] {
      StepKeepsCount(a, steps[0]);
      FirstCountIsOne(Apply(a, steps[0]), steps[1..], b, t);
    }
  }

  predicate HasArmed(calls: map<CallId, Call>, t: CallId) {
    t in calls && Armed(calls[t])
  }

  /** Who arms is decided by the first `Swaps` after a state in which the latch is clear. */
  lemma {:induction false} FirstSwapArms(a: Actuator, steps: seq<Step>, b: Actuator, t: CallId)
    requires LatchInv(a) && Reaches(a, steps, b)
    ensures HasArmed(b.calls, t) <==> if a.latch then HasArmed(a.calls, t) else FirstToSwap(steps) == Some(t)
    decreases |steps|
  {
    if steps != [] {
      StepKeepsLatch(a, steps[0]);
      FirstSwapArms(Apply(a, steps[0]), steps[1..], b, t);
    }
  }

  /** Counter and latch are two atomics: the trigger that draws count 1 is the one that arms exactly
      when the first swap of the run is made by the trigger that counted first. */
  lemma CountOneArmsExactly(steps: seq<Step>, a: Actuator, t: CallId)
    requires Reaches(NewActuator, steps, a) && t in a.calls && !a.calls[t].Entered? && a.calls[t].count == 1
    ensures Armed(a.calls[t]) <==> FirstToSwap(steps) == FirstToCount(steps)
  {
    FirstCountIsOne(NewActuator, steps, a, t);
    FirstSwapArms(NewActuator, steps, a, t);
    assert DrewOne(a.calls, t);
  }

  predicate InProgress(c: Call) {
    !c.Returned?
  }

  /** No trigger starts while another is under way. */
  predicate Sequential(a: Actuator, steps: seq<Step>)
    decreases |steps|
  {
    steps == [] ||
    (Enabled(a, steps[0])
     && (steps[0].Enters? ==> forall t :: t in a.calls ==> a.calls[t].Returned?)
     && Sequential(Apply(a, steps[0]), steps[1..]))
  }

  predicate OneAtATime(a: Actuator) {
    && (forall t, u :: t in a.calls && u in a.calls && InProgress(a.calls[t]) && InProgress(a.calls[u]) ==> t == u)
    && (forall t :: t in a.calls && Armed(a.calls[t]) ==> a.calls[t].count == 1)
    && (!a.latch ==> a.count <= 1)
  }

  lemma SequentialStep(a: Actuator, step: Step)
    requires CountInv(a) && LatchInv(a) && OneAtATime(a) && Enabled(a, step)
    requires step.Enters? ==> forall t :: t in a.calls ==> a.calls[t].Returned?
    ensures OneAtATime(Apply(a, step))
  {
    if step.Swaps? && !a.latch {
      assert step.t in CountedCalls(a.calls);
    }
  }

  /** Triggers one after the other: count 1 arms, and nothing else does. */
  lemma {:induction false} SequentialTriggersArmInOrder(a: Actuator, steps: seq<Step>, b: Actuator, t: CallId)
    requires CountInv(a) && LatchInv(a) && LinesInv(a) && EntriesInv(a) && OneAtATime(a)
    requires Reaches(a, steps, b) && Sequential(a, steps) && t in b.calls
    ensures Armed(b.calls[t]) ==> b.calls[t].count == 1
    ensures b.calls[t].Returned? && b.calls[t].count == 1 ==> b.calls[t].latched
    decreases |steps|
  {
    if steps != [] {
      StepKeepsCount(a, steps[0]);
      StepKeepsLatch(a, steps[0]);
      StepKeepsLines(a, steps[0]);
      StepKeepsEntries(a, steps[0]);
      SequentialStep(a, steps[0]);
      SequentialTriggersArmInOrder(Apply(a, steps[0]), steps[1..], b, t);
    } else if b.calls[t].Returned? && b.calls[t].count == 1 {
      var u :| u in b.calls && Armed(b.calls[u]);
      assert u in CountedCalls(b.calls) && t in CountedCalls(b.calls);
    }
  }

  /** Without that discipline a trigger with count 2 can arm. */
  lemma ArmingNeedNotCountFirst() returns (steps: seq<Step>, a: Actuator)
    ensures Reaches(NewActuator, steps, a)
    ensures 0 in a.calls && Armed(a.calls[0]) && a.calls[0].count == 2
  {
    var stop := Command(Local, None);
    steps := [Enters(0, stop), Enters(1, stop), Counts(1), Counts(0), Swaps(0)];
    var a1 := Apply(NewActuator, Enters(0, stop));
    var a2 := Apply(a1, Enters(1, stop));
    var a3 := Apply(a2, Counts(1));
    var a4 := Apply(a3, Counts(0));
    a := Apply(a4, Swaps(0));
    assert Reaches(a, steps[5..], a);
    assert Reaches(a4, steps[4..], a);
    assert Reaches(a3, steps[3..], a);
    assert Reaches(a2, steps[2..], a);
    assert Reaches(a1, steps[1..], a);
  }
}

module EmergencyActuator {
  import opened Emergency

  /** `StubEmergencyActuator`; `written` is whether the append to the audit file succeeds. */
  class StubEmergencyActuator {
    var count: nat
    var latch: bool
    var audit: seq<Line>

    constructor ()
      ensures count == NewActuator.count && latch == NewActuator.latch && audit == NewActuator.audit
    {
      count, latch, audit := 0, false, [];
    }

    /** One trigger that nothing interleaves with. */
    method Trigger(command: Command, written: bool, torn: bool) returns (latched: bool, triggerCount: nat, audited: bool)
      modifies this
      ensures triggerCount == old(count) + 1 && latched == !old(latch) && audited == written
      ensures count == triggerCount && latch
      ensures audit == Audit(old(audit), Entry(command, latched, triggerCount), written, torn)
    {
      count := count + 1;
      triggerCount := count;
      latched := !latch;
      latch := true;
      if written {
        audit := audit + [Entry(command, latched, triggerCount)];
      } else if torn {
        audit := audit + [Torn];
      }
      audited := written;
    }
  }

  function Audit(audit: seq<Line>, line: Line, written: bool, torn: bool): seq<Line> {
    if written then audit + [line] else if torn then audit + [Torn] else audit
  }

  /** What `Trigger` does in one go is what an uninterrupted run of its atomic steps does. */
  lemma UninterruptedTrigger(a: Actuator, t: CallId, command: Command, written: bool, torn: bool)
    requires t !in a.calls
    ensures Reaches(a, [Enters(t, command), Counts(t), Swaps(t), if written then Appends(t) else FailsToAppend(t, torn)],
                    Actuator(a.count + 1, true, Audit(a.audit, Entry(command, !a.latch, a.count + 1), written, torn),
                             a.calls[t := Returned(command, a.count + 1, !a.latch, written)]))
  {
    var steps := [Enters(t, command), Counts(t), Swaps(t), if written then Appends(t) else FailsToAppend(t, torn)];
    var a1 := Apply(a, steps[0]);
    var a2 := Apply(a1, steps[1]);
    var a3 := Apply(a2, steps[2]);
    var a4 := Apply(a3, steps[3]);
    assert a4.calls == a.calls[t := Returned(command, a.count + 1, !a.latch, written)];
    assert Reaches(a4, steps[4..], a4);
    assert Reaches(a3, steps[3..], a4);
    assert Reaches(a2, steps[2..], a4);
    assert Reaches(a1, steps[1..], a4);
  }
}
