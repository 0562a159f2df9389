/**
 The lifecycle state machine of an RTP video sender channel, as values.

 A channel moves through Pending, Ready, ShuttingDown and Shutdown. Its
 `step` runs an ordered list of sub-tasks and becomes Ready once none of
 them is blocked; `cancel` tears it down, holding a strong reference to
 itself while it does; `setError` latches an error code and reason.

 This module states what each operation does to a `Snapshot` of the
 channel's fields and proves what holds over any sequence of operations.
 The class in module SenderChannelVideo is proved against these functions.
 */
module Lifecycle {

  datatype Option<T> = None | Some(value: T)

  /** The index of the first element of `s` that satisfies `p`, if any. */
  function FirstIndex<T>(s: seq<T>, p: T -> bool): (r: Option<nat>)
    ensures r.None? <==> forall j :: 0 <= j < |s| ==> !p(s[j])
    ensures r.Some? ==>
      && r.value < |s|
      && p(s[r.value])
      && forall j :: 0 <= j < r.value ==> !p(s[j])
  {
    if |s| == 0 then None
    else if p(s[0]) then Some(0)
    else match FirstIndex(s[1..], p)
      case None => None
      case Some(i) => Some(i + 1)
  }

  /** The 16-bit unsigned error code (`WORD`) that `setError` takes. */
  newtype Word = x: int | 0 <= x < 0x1_0000

  datatype State = Pending | Ready | ShuttingDown | Shutdown

  /** What one sub-task of `step` reports. */
  datatype Outcome = AlreadyDone | Blocked | Performed

  /** The fields the lifecycle operations read and write. */
  datatype Snapshot = Snapshot(
    state: State,
    lastError: Word,
    lastErrorReason: string,
    // a strong reference from the channel to itself, held only inside cancel
    gracefulShutdownReference: bool,
    // whether the channel's weak reference to itself still resolves
    thisWeak: bool)

  /** Position of a state along Pending -> Ready -> ShuttingDown -> Shutdown. */
  function Rank(s: State): nat
  {
    match s
    case Pending => 0
    case Ready => 1
    case ShuttingDown => 2
    case Shutdown => 3
  }

  /** The text `toString` falls back to for a value outside the enumeration. */
  const UndefinedName := "UNDEFINED"

  /** The name `toString` gives each state; the fallback is never reached. */
  function StateName(s: State): (name: string)
    ensures |name| > 0 && name != UndefinedName
  {
    match s
    case Pending => "pending"
    case Ready => "ready"
    case ShuttingDown => "shutting down"
    case Shutdown => "shutdown"
  }

  lemma StateNameInjective(s: State, t: State)
    ensures StateName(s) == StateName(t) ==> s == t
  {
  }

  /** `isShuttingDown() || isShutdown()`, the test step makes first: teardown has begun. */
  predicate IsTearingDown(s: State)
    ensures IsTearingDown(s) <==> Rank(s) >= Rank(ShuttingDown)
  {
    s == ShuttingDown || s == Shutdown
  }

  /** Between operations the channel never holds a reference to itself. */
  predicate Valid(c: Snapshot)
  {
    !c.gracefulShutdownReference
  }

  /** The channel as constructed, before any wake. */
  function Initial(thisWeak: bool): (c: Snapshot)
    ensures Valid(c) && c.state == Pending && c.lastError == 0 && c.lastErrorReason == ""
  {
    Snapshot(Pending, 0, "", false, thisWeak)
  }

  // ---------------------------------------------------------------------
  // Sub-tasks of step

  /** Where a pass over the sub-tasks stopped. */
  datatype SubTaskRun = AllDone | BlockedAt(index: nat)

  predicate IsBlocked(o: Outcome)
  {
    o == Blocked
  }

  /**
   Evaluates the sub-tasks in order and stops at the first blocked one; the
   result is that sub-task's index, or AllDone when none is blocked.
   */
  function RunSubTasks(subTasks: seq<Outcome>): (r: SubTaskRun)
    ensures r.AllDone? <==> forall j :: 0 <= j < |subTasks| ==> subTasks[j] != Blocked
    ensures r.BlockedAt? ==>
      && r.index < |subTasks|
      && subTasks[r.index] == Blocked
      && forall j :: 0 <= j < r.index ==> subTasks[j] != Blocked
  {
    match FirstIndex(subTasks, IsBlocked)
    case None => AllDone
    case Some(i) => BlockedAt(i)
  }

  /**
   Sub-tasks after the first blocked one are never attempted: whatever they
   would report, the pass ends at the same place.
   */
  lemma {:induction false} LaterSubTasksNotAttempted(subTasks: seq<Outcome>, later: seq<Outcome>)
    requires RunSubTasks(subTasks).BlockedAt?
    ensures var i := RunSubTasks(subTasks).index;
      RunSubTasks(subTasks[..i + 1] + later) == BlockedAt(i)
  {
    var i := RunSubTasks(subTasks).index;
    var other := subTasks[..i + 1] + later;
    assert other[i] == Blocked;
    assert forall j :: 0 <= j < i ==> other[j] == subTasks[j];
    var r := RunSubTasks(other);
    assert r.BlockedAt?;
    assert r.index <= i;
  }

  /**
   The channel's one sub-task, `stepBogusDoSomething`: it reports AlreadyDone
   when its work is already done, Blocked when it cannot proceed yet, and
   otherwise does its work and reports Performed.
   */
  function BogusDoSomething(alreadyDone: bool, cannotProceed: bool): (o: Outcome)
    ensures o == Blocked <==> !alreadyDone && cannotProceed
    ensures o == AlreadyDone <==> alreadyDone
  {
    if alreadyDone then AlreadyDone
    else if cannotProceed then Blocked
    else Performed
  }

  /**
   The sub-tasks the channel's `step` runs. Both conditions of its one
   sub-task are stubbed to false, so the pass always completes.
   */
  function VideoSubTasks(): (subTasks: seq<Outcome>)
    ensures |subTasks| == 1
    ensures RunSubTasks(subTasks) == AllDone
  {
    [BogusDoSomething(false, false)]
  }

  // ---------------------------------------------------------------------
  // The operations

  /**
   `cancel`: nothing when already Shutdown; otherwise takes a reference to
   itself if it has none, becomes Shutdown and drops that reference.
   */
  function CancelSpec(c: Snapshot): (r: Snapshot)
    ensures r.state == Shutdown
    ensures c.state == Shutdown ==> r == c
    ensures c.state != Shutdown ==> !r.gracefulShutdownReference
    ensures r.lastError == c.lastError && r.lastErrorReason == c.lastErrorReason
    ensures r.thisWeak == c.thisWeak
  {
    if c.state == Shutdown then c
    else
      var held := c.gracefulShutdownReference || c.thisWeak;
      var cleaned := c.(gracefulShutdownReference := held, state := Shutdown);
      cleaned.(gracefulShutdownReference := false)
  }

  lemma CancelIdempotent(c: Snapshot)
    ensures CancelSpec(CancelSpec(c)) == CancelSpec(c)
  {
  }

  /**
   `step`: during teardown it is `cancel`; otherwise it runs the sub-tasks
   and becomes Ready when none is blocked, and changes nothing when one is.
   */
  function StepSpec(c: Snapshot, subTasks: seq<Outcome>): (r: Snapshot)
    ensures IsTearingDown(c.state) ==> r == CancelSpec(c) && r.state == Shutdown
    ensures !IsTearingDown(c.state) ==>
      (r.state == Ready <==> c.state == Ready || RunSubTasks(subTasks).AllDone?)
    ensures RunSubTasks(subTasks).BlockedAt? && !IsTearingDown(c.state) ==> r == c
    ensures RunSubTasks(subTasks).AllDone? && !IsTearingDown(c.state) ==> r == c.(state := Ready)
    ensures Rank(c.state) <= Rank(r.state)
    ensures r.lastError == c.lastError && r.lastErrorReason == c.lastErrorReason
    ensures r.thisWeak == c.thisWeak
  {
    if IsTearingDown(c.state) then CancelSpec(c)
    else match RunSubTasks(subTasks)
      case BlockedAt(_) => c
      case AllDone => c.(state := Ready)
  }

  /** From Pending or Ready, the channel's own step always ends in Ready. */
  lemma VideoStepReachesReady(c: Snapshot)
    requires c.state == Pending || c.state == Ready
    ensures StepSpec(c, VideoSubTasks()) == c.(state := Ready)
  {
  }

  /** The reason `setError` records: the given one, or the code's standard text. */
  function EffectiveReason(code: Word, reason: string, statusText: Word -> string): (r: string)
    ensures |reason| > 0 ==> r == reason
    ensures |reason| == 0 ==> r == statusText(code)
  {
    if |reason| == 0 then statusText(code) else reason
  }

  /**
   `setError`: records the code and reason unless a nonzero code is already
   recorded. A code of 0 is recorded too, so it does not close the latch.
   */
  function SetErrorSpec(c: Snapshot, code: Word, reason: string, statusText: Word -> string): (r: Snapshot)
    ensures r.state == c.state
    ensures r.gracefulShutdownReference == c.gracefulShutdownReference && r.thisWeak == c.thisWeak
    ensures c.lastError != 0 ==> r == c
    ensures c.lastError == 0 ==>
      r.lastError == code && r.lastErrorReason == EffectiveReason(code, reason, statusText)
    ensures r.lastError != 0 <==> c.lastError != 0 || code != 0
  {
    var text := EffectiveReason(code, reason, statusText);
    if c.lastError != 0 then c
    else c.(lastError := code, lastErrorReason := text)
  }

  // ---------------------------------------------------------------------
  // Sequences of operations

  datatype Op =
    | Step(subTasks: seq<Outcome>)
    | Cancel
    | SetError(code: Word, reason: string)

  /** `onWake` is `step` over the channel's own sub-tasks, which never block. */
  function Wake(): (op: Op)
    ensures op.Step? && RunSubTasks(op.subTasks) == AllDone
  {
    Step(VideoSubTasks())
  }

  function Apply(c: Snapshot, op: Op, statusText: Word -> string): (r: Snapshot)
    ensures Rank(c.state) <= Rank(r.state)
    ensures Valid(c) ==> Valid(r)
    ensures c.state == Shutdown ==> r.state == Shutdown
    ensures r.thisWeak == c.thisWeak
  {
    match op
    case Step(subTasks) => StepSpec(c, subTasks)
    case Cancel => CancelSpec(c)
    case SetError(code, reason) => SetErrorSpec(c, code, reason, statusText)
  }

  function Run(c: Snapshot, ops: seq<Op>, statusText: Word -> string): Snapshot
    decreases |ops|
  {
    if ops == [] then c
    else Run(Apply(c, ops[0], statusText), ops[1..], statusText)
  }

  /** No sequence of operations moves the channel backwards in its lifecycle. */
  lemma {:induction false} RunMonotonic(c: Snapshot, ops: seq<Op>, statusText: Word -> string)
    ensures Rank(c.state) <= Rank(Run(c, ops, statusText).state)
    decreases |ops|
  {
    if ops != [] {
      RunMonotonic(Apply(c, ops[0], statusText), ops[1..], statusText);
    }
  }

  /**
   Shutdown is absorbing: after it, no sequence of operations changes
   anything but the error fields, so the state stays Shutdown.
   */
  lemma {:induction false} ShutdownAbsorbing(c: Snapshot, ops: seq<Op>, statusText: Word -> string)
    requires c.state == Shutdown
    ensures var r := Run(c, ops, statusText);
      r == c.(lastError := r.lastError, lastErrorReason := r.lastErrorReason)
    decreases |ops|
  {
    if ops != [] {
      var next := Apply(c, ops[0], statusText);
      assert next == c.(lastError := next.lastError, lastErrorReason := next.lastErrorReason);
      ShutdownAbsorbing(next, ops[1..], statusText);
    }
  }

  /** Once a nonzero code is latched, no operation changes the code or the reason. */
  lemma {:induction false} ErrorLatched(c: Snapshot, ops: seq<Op>, statusText: Word -> string)
    requires c.lastError != 0
    ensures Run(c, ops, statusText).lastError == c.lastError
    ensures Run(c, ops, statusText).lastErrorReason == c.lastErrorReason
    decreases |ops|
  {
    if ops != [] {
      ErrorLatched(Apply(c, ops[0], statusText), ops[1..], statusText);
    }
  }

  /** No operation leaves the channel holding a reference to itself. */
  lemma {:induction false} SelfReferenceReleased(c: Snapshot, ops: seq<Op>, statusText: Word -> string)
    requires Valid(c)
    ensures Valid(Run(c, ops, statusText))
    decreases |ops|
  {
    if ops != [] {
      SelfReferenceReleased(Apply(c, ops[0], statusText), ops[1..], statusText);
    }
  }

  predicate Latches(op: Op)
  {
    op.SetError? && op.code != 0
  }

  /** The index of the first `setError` with a nonzero code, if any. */
  function FirstLatch(ops: seq<Op>): Option<nat>
  {
    FirstIndex(ops, Latches)
  }

  /**
   Starting with no error latched, the error a sequence of operations leaves
   behind is that of its first `setError` with a nonzero code, with the
   code's standard text when that call gave no reason; without such a call
   the code stays 0.
   */
  lemma {:induction false} FirstNonzeroErrorWins(c: Snapshot, ops: seq<Op>, statusText: Word -> string)
    requires c.lastError == 0
    ensures var r := Run(c, ops, statusText);
      match FirstLatch(ops)
      case Some(i) =>
        r.lastError == ops[i].code
        && r.lastErrorReason == EffectiveReason(ops[i].code, ops[i].reason, statusText)
      case None => r.lastError == 0
    decreases |ops|
  {
    if ops != [] {
      var next := Apply(c, ops[0], statusText);
      if Latches(ops[0]) {
        ErrorLatched(next, ops[1..], statusText);
      } else {
        assert next.lastError == 0;
        FirstNonzeroErrorWins(next, ops[1..], statusText);
        assert forall j :: 0 <= j < |ops| - 1 ==> ops[1..][j] == ops[j + 1];
      }
    }
  }

  /**
   A `setError` with code 0 overwrites the recorded reason but leaves the
   latch open: a later nonzero code still replaces both.
   */
  lemma ZeroCodeDoesNotLatch(c: Snapshot, reason0: string, code: Word, reason: string, statusText: Word -> string)
    requires c.lastError == 0 && code != 0
    ensures var r := Run(c, [SetError(0, reason0), SetError(code, reason)], statusText);
      r.lastError == code && r.lastErrorReason == EffectiveReason(code, reason, statusText)
  {
    var ops := [SetError(0, reason0), SetError(code, reason)];
    var first := SetErrorSpec(c, 0, reason0, statusText);
    assert ops[1..] == [SetError(code, reason)];
    assert Run(c, ops, statusText) == Run(first, [SetError(code, reason)], statusText);
    assert first.lastError == 0;
    var second := SetErrorSpec(first, code, reason, statusText);
    assert Run(first, [SetError(code, reason)], statusText) == Run(second, [], statusText);
  }

  /**
   A channel built, woken once, cancelled twice and then given error 404
   with no reason ends Shutdown, holding no reference to itself, with 404
   and its standard text recorded.
   */
  lemma LifecycleScenario(statusText: Word -> string)
    ensures var c := Initial(true);
      && Run(c, [Wake()], statusText).state == Ready
      && Run(c, [Wake(), Cancel], statusText).state == Shutdown
      && Run(c, [Wake(), Cancel, Cancel], statusText) == Run(c, [Wake(), Cancel], statusText)
      && Run(c, [Wake(), Cancel, Cancel, SetError(404, "")], statusText)
         == Snapshot(Shutdown, 404, statusText(404), false, true)
  {
  }
}
