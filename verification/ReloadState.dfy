/**
 Reloader (reload.py) as a state machine.  A step is what one coroutine does between two awaits:
 `request` up to its shielded wait, the first step of `_run`, one apply ending inside `_run` with
 what follows up to the next apply or the end of the task, and `cancel` up to its wait.  Time is
 the number of steps made.
*/
module ReloadState {
  import opened Wrappers

  type Time = nat
  type Trigger = string

  /** What a future holds.  `Cancelled` is RuntimeError("reload cancelled"). */
  datatype Outcome = Pending | Answered(apply: nat, ok: bool) | Cancelled

  /** A future and the request that created it. */
  datatype Future = Future(maker: nat, outcome: Outcome)

  /** A request, and the future it waits for; None when it was refused. */
  datatype Request = Request(at: Time, trigger: Trigger, waits: Option<nat>)

  datatype Apply = Apply(trigger: Trigger, future: nat, started: Time, ended: Option<Time>)

  /** The task of _run.  `cancelled` says a task.cancel() has not been delivered yet. */
  datatype Task =
    | NoTask
    | Scheduled(first: nat, cancelled: bool)
    | Applying(pending: nat, cancelled: bool)
    | Done

  datatype State = State(
    task: Task,
    next: Option<nat>,
    nextTrigger: Trigger,
    closedAt: Option<Time>,
    futures: seq<Future>,
    requests: seq<Request>,
    applies: seq<Apply>,
    neverStarted: bool, // a task was cancelled before its first step
    returnedLate: bool, // an apply returned, cancelled or not, after cancel(), with a follow-up waiting
    now: Time)

  function Init(): State {
    State(NoTask, None, "", None, [], [], [], false, false, 0)
  }

  predicate IsIdle(t: Task) { t.NoTask? || t.Done? }

  /** The future a request gets to wait for. */
  function Waits(s: State): Option<nat> {
    if s.closedAt.Some? then None
    else if !IsIdle(s.task) && s.next.Some? then s.next
    else Some(|s.futures|)
  }

  /** A request, up to its await. */
  function Ask(s: State, trigger: Trigger): State {
    var asked := s.(requests := s.requests + [Request(s.now, trigger, Waits(s))], now := s.now + 1);
    var grown := s.futures + [Future(|s.requests|, Pending)];
    if s.closedAt.Some? then asked
    else if IsIdle(s.task) then asked.(futures := grown, task := Scheduled(|s.futures|, false))
    else if s.next.None? then asked.(futures := grown, next := Some(|s.futures|), nextTrigger := trigger)
    else asked
  }

  /** What the request that made a future gave as its trigger. */
  function TriggerOf(futures: seq<Future>, requests: seq<Request>, f: nat): Trigger {
    if f < |futures| && futures[f].maker < |requests| then requests[futures[f].maker].trigger else ""
  }

  predicate StartOk(s: State) { s.task.Scheduled? && !s.task.cancelled }

  /** _run from its beginning to the await of the first apply.  Its trigger was passed to it when
      the task was created. */
  function Start(s: State): State
    requires StartOk(s)
  {
    s.(task := Applying(s.task.first, false),
       applies := s.applies + [Apply(TriggerOf(s.futures, s.requests, s.task.first), s.task.first, s.now, None)],
       now := s.now + 1)
  }

  predicate NeverStartOk(s: State) { s.task.Scheduled? && s.task.cancelled }

  /** The task was cancelled before its first step: no line of _run is executed. */
  function NeverStart(s: State): State
    requires NeverStartOk(s)
  {
    s.(task := Done, neverStarted := true, now := s.now + 1)
  }

  function Resolve(futures: seq<Future>, f: nat, o: Outcome): (r: seq<Future>)
    ensures |r| == |futures|
  {
    if f < |futures| && futures[f].outcome.Pending? then futures[f := futures[f].(outcome := o)] else futures
  }

  function End(applies: seq<Apply>, now: Time): (r: seq<Apply>)
    ensures |r| == |applies|
  {
    if applies == [] then [] else applies[|applies| - 1 := applies[|applies| - 1].(ended := Some(now))]
  }

  predicate ReturnOk(s: State) { s.task.Applying? && s.applies != [] }

  /** The apply returned, or raised an Exception: its waiters get that, and the follow-up starts if
      anybody asked for one.  A cancellation the apply swallowed is spent. */
  function Return(s: State, ok: bool): State
    requires ReturnOk(s)
  {
    var futures := Resolve(s.futures, s.task.pending, Answered(|s.applies| - 1, ok));
    var ended := End(s.applies, s.now);
    if s.next.Some? then
      s.(futures := futures, task := Applying(s.next.value, false), next := None,
         applies := ended + [Apply(s.nextTrigger, s.next.value, s.now, None)],
         returnedLate := s.returnedLate || s.closedAt.Some?, now := s.now + 1)
    else
      s.(futures := futures, task := Done, applies := ended, now := s.now + 1)
  }

  predicate AbortOk(s: State) { s.task.Applying? && s.applies != [] }

  /** A cancellation, or another BaseException, came out of the apply. */
  function Abort(s: State): State
    requires AbortOk(s)
  {
    var futures := Resolve(s.futures, s.task.pending, Cancelled);
    s.(futures := if s.next.Some? then Resolve(futures, s.next.value, Cancelled) else futures,
       task := Done, next := None, applies := End(s.applies, s.now), now := s.now + 1)
  }

  /** cancel, up to its await of the task. */
  function Cancel(s: State): State {
    s.(closedAt := if s.closedAt.None? then Some(s.now) else s.closedAt,
       task := if IsIdle(s.task) then s.task else s.task.(cancelled := true), now := s.now + 1)
  }

  datatype Event = DoAsk(trigger: Trigger) | DoStart | DoNeverStart | DoReturn(ok: bool) | DoAbort | DoCancel

  predicate Enabled(s: State, e: Event) {
    match e
    case DoAsk(_) => true
    case DoStart => StartOk(s)
    case DoNeverStart => NeverStartOk(s)
    case DoReturn(_) => ReturnOk(s)
    case DoAbort => AbortOk(s)
    case DoCancel => true
  }

  function Step(s: State, e: Event): State
    requires Enabled(s, e)
  {
    match e
    case DoAsk(t) => Ask(s, t)
    case DoStart => Start(s)
    case DoNeverStart => NeverStart(s)
    case DoReturn(ok) => Return(s, ok)
    case DoAbort => Abort(s)
    case DoCancel => Cancel(s)
  }

  predicate Legal(s: State, es: seq<Event>)
    decreases |es|, 0
  {
    es == [] || (Legal(s, es[..|es| - 1]) && Enabled(After(s, es[..|es| - 1]), es[|es| - 1]))
  }

  function After(s: State, es: seq<Event>): State
    requires Legal(s, es)
    decreases |es|, 1
  {
    if es == [] then s else Step(After(s, es[..|es| - 1]), es[|es| - 1])
  }
}
