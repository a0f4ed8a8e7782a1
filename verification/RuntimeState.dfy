/**
 The live surface table (runtime.py, with the attach path of gateway.py) as a state machine.

 Every step is a stretch of code between two awaits of one coroutine, so any other
 coroutine may run between two steps and none inside a step.  Where the source runs several
 loop iterations without an await (the retries `start` creates, the outcomes `reload` applies,
 the surfaces it removes), each iteration is its own step: the machine then has MORE
 interleavings than the program, and what holds in all of them holds in the program.

 Objects (slots, supervisors, retry tasks, backends) are identified by numbers drawn from one
 counter.  A backend is recorded under whoever would have to close it (`owned`), and `closes`
 counts the calls of its `aclose`.
*/
module RuntimeState {
  import opened Wrappers

  type Name = string
  type Id = int

  /** Who would have to close a backend. */
  datatype Holder =
    | ByRetry(task: Id)        // a retry task inside _attach_one
    | ByChild(surface: Name)   // one branch of the gather in build_surfaces or reload
    | InBuilt(surface: Name)   // the `built` dict of that gather
    | InBooted(surface: Name)  // GatewayRuntime._booted
    | BySupervisor(sup: Id)

  /** How far Supervisor._run is.  `Closed` is the call of close_backend in its `finally`. */
  datatype Phase = Entering | Serving | Closed

  /** Auxiliary: who refers to a supervisor.  No step reads it to decide anything the
      program decides; the invariant ties it to the tables the program does read. */
  datatype Place = AtRetry(task: Id) | AtControl | AtSlot(slot: Id) | Retired | Gone

  datatype Supervisor = Supervisor(
    phase: Phase,
    stop: bool,       // Supervisor._stop
    cancelled: bool,  // its task has a cancellation pending or delivered
    drained: bool,    // _Counted.drained returned because _idle was set
    active: nat,      // _Counted.active
    place: Place)

  datatype Slot = Slot(
    name: Name, app: Option<Id>, sup: Option<Id>, retry: Option<Id>, configFault: bool)

  /** Where a retry task is suspended.  `Refusing` awaits the close of a backend its attach
      dropped; `Unwinding` awaits a supervisor it cancelled. */
  datatype RetryPhase =
    | Sleeping
    | Building
    | Finishing
    | Refusing(fault: bool)
    | Starting(sup: Id)
    | Unwinding(sup: Id)

  /** `entry` is the registry entry it attaches, as the fingerprint of it. */
  datatype Retry = Retry(slot: Id, phase: RetryPhase, cancelled: bool, entry: string)

  datatype Child = ChildBuilding | ChildFinishing | ChildRefusing(fault: bool) | ChildOk | ChildFailed(fault: bool)

  /** The install `start` or `reload` is awaiting. */
  datatype Install = Install(name: Name, sup: Id)

  /** The one coroutine that is booting, starting, reloading or shutting down.
      `Reloader` runs one reload at a time (`ReloadTheorems.OneApplyAtATime`).  `BootAborting` is
      boot() on its way out with an exception: no lifespan begins after it, and no shutdown. */
  datatype Control =
    | Booting
    | BootAborting
    | Built
    | StartUp(cur: Option<Install>)
    | Running
    | Gathering(incoming: map<Name, string>)
    | Applying(incoming: map<Name, string>, cur: Option<Install>)
    | Aborting(cur: Option<Install>)
    | StopRetries(wait: set<Id>)
    | StopSupervisors(tasks: set<TaskRef>)
    | Down

  datatype TaskRef = RetryTask(task: Id) | SupervisorTask(sup: Id)

  datatype State = State(
    control: Control,
    registry: set<Name>,
    prints: map<Name, string>,
    table: map<Name, Id>,
    slots: map<Id, Slot>,
    failed: set<Name>,
    configFaults: set<Name>,
    reloadFailed: set<Name>,
    lastRefused: bool,
    supervisors: map<Id, Supervisor>,
    retries: map<Id, Retry>,
    retiring: set<TaskRef>,
    children: map<Name, Child>,
    owned: map<Holder, Id>,
    closes: map<Id, nat>,
    lost: set<Id>,    // backends dropped unclosed: nobody will ever close them
    origin: map<Id, string>, // history: the entry each backend was attached from
    next: Id,
    lateDeaths: nat)  // history: apps that died while shutdown was waiting

  // ------------------------------------------------------------------ reading a state

  predicate Stopping(c: Control) {
    c.StopRetries? || c.StopSupervisors? || c.Down?
  }

  function Current(c: Control): Option<Install> {
    match c
    case StartUp(cur) => cur
    case Applying(_, cur) => cur
    case Aborting(cur) => cur
    case _ => None
  }

  predicate InTable(s: State, k: Id) {
    k in s.slots && s.slots[k].name in s.table && s.table[s.slots[k].name] == k
  }

  predicate HasSlot(s: State, n: Name) {
    n in s.table && s.table[n] in s.slots
  }

  function SlotOf(s: State, n: Name): Slot
    requires HasSlot(s, n)
  {
    s.slots[s.table[n]]
  }

  /** reload.diff: the names to attach. */
  function Targets(current: map<Name, string>, incoming: map<Name, string>): set<Name> {
    set n | n in incoming && (n !in current || incoming[n] != current[n])
  }

  /** The entry of a surface in a registry. */
  function EntryOf(registry: map<Name, string>, n: Name): string {
    if n in registry then registry[n] else ""
  }

  /** The registry a gather attaches from, or that is in force. */
  function Reading(control: Control, prints: map<Name, string>): map<Name, string> {
    match control
    case Gathering(incoming) => incoming
    case Applying(incoming, _) => incoming
    case _ => prints
  }

  // ------------------------------------------------------------------ building blocks

  /** `from` passes its backend on without closing it. */
  function Passed(owned: map<Holder, Id>, from: Holder, to: Holder): map<Holder, Id> {
    if from in owned then (owned - {from})[to := owned[from]] else owned
  }

  /** close_backend on what `h` holds: the count of its closes. */
  function ClosedBy(closes: map<Id, nat>, owned: map<Holder, Id>, h: Holder): map<Id, nat> {
    if h in owned && owned[h] in closes then closes[owned[h] := closes[owned[h]] + 1] else closes
  }

  /** task.cancel() on a retry, if there is one. */
  function CancelTask(retries: map<Id, Retry>, t: Option<Id>): map<Id, Retry> {
    if t.Some? && t.value in retries then retries[t.value := retries[t.value].(cancelled := true)] else retries
  }

  /** runtime._cancel_retry's bookkeeping. */
  function TrackTask(retiring: set<TaskRef>, t: Option<Id>): set<TaskRef> {
    if t.Some? then retiring + {RetryTask(t.value)} else retiring
  }

  /** runtime._retire, if there is a supervisor. */
  function RetireSup(supervisors: map<Id, Supervisor>, i: Option<Id>): map<Id, Supervisor> {
    if i.Some? && i.value in supervisors then
      supervisors[i.value := supervisors[i.value].(stop := true, place := Retired)]
    else supervisors
  }

  function TrackSup(retiring: set<TaskRef>, i: Option<Id>): set<TaskRef> {
    if i.Some? then retiring + {SupervisorTask(i.value)} else retiring
  }

  /** Supervisor.start was called: a supervisor entering its app's lifespan. */
  function Entered(place: Place): Supervisor {
    Supervisor(Entering, false, false, false, 0, place)
  }

  /** task.cancel() on a supervisor's task. */
  function CancelSup(supervisors: map<Id, Supervisor>, i: Id): map<Id, Supervisor> {
    if i in supervisors then supervisors[i := supervisors[i].(cancelled := true)] else supervisors
  }

  /** The supervisors once `i` is installed in slot `k` in place of `previous`. */
  function SwapSup(supervisors: map<Id, Supervisor>, k: Id, i: Id, previous: Option<Id>): map<Id, Supervisor>
    requires i in supervisors
  {
    RetireSup(supervisors[i := supervisors[i].(place := AtSlot(k))], previous)
  }

  /** The slot once `i` is installed in it: runtime._install from the moment the app is ready. */
  function Installed(sl: Slot, i: Id): Slot {
    sl.(app := Some(i), sup := Some(i), configFault := false)
  }

  // ------------------------------------------------------------------ boot and start

  function Init(prints: map<Name, string>): State {
    State(Booting, prints.Keys, prints, map[], map[], {}, {}, {}, false, map[], map[], {},
          map n | n in prints :: ChildBuilding, map[], map[], {}, map[], 0, 0)
  }

  predicate Done(c: Child) { c.ChildOk? || c.ChildFailed? }

  predicate ChildrenDone(children: map<Name, Child>) {
    forall n :: n in children ==> Done(children[n])
  }

  /** One registry name at the end of boot(): its slot, and its backend moved from `built` to
      `_booted` or its failure recorded. */
  predicate BootOneOk(s: State, n: Name) {
    s.control.Booting? && ChildrenDone(s.children) && n in s.children && n !in s.table
  }

  function BootOne(s: State, n: Name): State
    requires BootOneOk(s, n)
  {
    var failed := s.children[n].ChildFailed?;
    var fault := failed && s.children[n].fault;
    s.(children := s.children - {n},
       table := s.table[n := s.next],
       slots := s.slots[s.next := Slot(n, None, None, None, fault)],
       next := s.next + 1,
       owned := Passed(s.owned, InBuilt(n), InBooted(n)),
       failed := if failed then s.failed + {n} else s.failed,
       configFaults := if fault then s.configFaults + {n} else s.configFaults)
  }

  predicate BootDoneOk(s: State) { s.control.Booting? && s.children == map[] }

  function BootDone(s: State): State { s.(control := Built) }

  predicate StartOk(s: State) { s.control.Built? }

  function Start(s: State): State { s.(control := StartUp(None)) }

  predicate StartInstallOk(s: State, n: Name) {
    s.control == StartUp(None) && InBooted(n) in s.owned
  }

  function StartInstall(s: State, n: Name): State {
    s.(control := StartUp(Some(Install(n, s.next))),
       owned := Passed(s.owned, InBooted(n), BySupervisor(s.next)),
       supervisors := s.supervisors[s.next := Entered(AtControl)],
       next := s.next + 1)
  }

  /** The install the control coroutine awaits can go on: its app is serving. */
  predicate AppReady(s: State) {
    && Current(s.control).Some?
    && HasSlot(s, Current(s.control).value.name)
    && Current(s.control).value.sup in s.supervisors
    && s.supervisors[Current(s.control).value.sup].phase.Serving?
    && !s.supervisors[Current(s.control).value.sup].cancelled
  }

  /** The install the control coroutine awaits has failed, and its backend is closed. */
  predicate AppFailed(s: State) {
    && Current(s.control).Some?
    && HasSlot(s, Current(s.control).value.name)
    && Current(s.control).value.sup in s.supervisors
    && s.supervisors[Current(s.control).value.sup].phase.Closed?
  }

  predicate StartInstalledOk(s: State) { s.control.StartUp? && AppReady(s) }

  function StartInstalled(s: State): State
    requires StartInstalledOk(s)
  {
    var c := s.control.cur.value;
    var k := s.table[c.name];
    s.(control := StartUp(None),
       slots := s.slots[k := Installed(s.slots[k], c.sup)],
       supervisors := SwapSup(s.supervisors, k, c.sup, s.slots[k].sup),
       retiring := TrackSup(s.retiring, s.slots[k].sup))
  }

  predicate NeedsRetry(s: State, n: Name) {
    HasSlot(s, n) && n in s.failed && n !in s.configFaults && SlotOf(s, n).retry.None?
  }

  predicate StartRetryOk(s: State, n: Name) {
    s.control == StartUp(None) && NeedsRetry(s, n) && InBooted(n) !in s.owned
  }

  /** asyncio.create_task(self._retry(slot, ...)), stored in slot.retry. */
  function StartRetry(s: State, n: Name): State
    requires StartRetryOk(s, n)
  {
    var k := s.table[n];
    s.(slots := s.slots[k := s.slots[k].(retry := Some(s.next))],
       retries := s.retries[s.next := Retry(k, Sleeping, false, EntryOf(s.prints, n))],
       next := s.next + 1)
  }

  predicate StartDoneOk(s: State) {
    && s.control == StartUp(None)
    && (forall h :: h in s.owned ==> !h.InBooted?)
    && (forall n :: n in s.failed ==> !NeedsRetry(s, n))
  }

  function StartDone(s: State): State { s.(control := Running) }

  // ------------------------------------------------------------------ the gather's branches

  predicate Attaching(s: State, n: Name) {
    (s.control.Booting? || s.control.Gathering?) && n in s.children
  }

  predicate ChildBuiltOk(s: State, n: Name) { Attaching(s, n) && s.children[n].ChildBuilding? }

  /** `plugin.build` returned: the attaching coroutine now holds a backend. */
  function ChildBuilt(s: State, n: Name): State {
    s.(owned := s.owned[ByChild(n) := s.next], closes := s.closes[s.next := 0], next := s.next + 1,
       origin := s.origin[s.next := EntryOf(Reading(s.control, s.prints), n)],
       children := s.children[n := ChildFinishing])
  }

  /** load_backend raised, or the close of a refused backend has returned. */
  predicate ChildFailOk(s: State, n: Name, fault: bool) {
    Attaching(s, n) && (s.children[n].ChildBuilding? || s.children[n] == ChildRefusing(fault))
  }

  function ChildFail(s: State, n: Name, fault: bool): State {
    s.(children := s.children[n := ChildFailed(fault)])
  }

  predicate ChildHolds(s: State, n: Name) { Attaching(s, n) && s.children[n].ChildFinishing? }

  /** _finish_attach raised: _attach_one closes the backend before the error propagates. */
  function ChildRefuse(s: State, n: Name, fault: bool): State {
    s.(owned := s.owned - {ByChild(n)}, closes := ClosedBy(s.closes, s.owned, ByChild(n)),
       children := s.children[n := ChildRefusing(fault)])
  }

  /** `backends[name] = backend; return surface` */
  function ChildAttach(s: State, n: Name): State {
    s.(owned := Passed(s.owned, ByChild(n), InBuilt(n)), children := s.children[n := ChildOk])
  }

  // ------------------------------------------------------------------ supervisors

  predicate Live(s: State, i: Id) {
    i in s.supervisors && !s.supervisors[i].phase.Closed?
  }

  predicate SupReadyOk(s: State, i: Id) {
    i in s.supervisors && s.supervisors[i].phase.Entering? && !s.supervisors[i].cancelled
  }

  function SupReady(s: State, i: Id): State
    requires SupReadyOk(s, i)
  {
    s.(supervisors := s.supervisors[i := s.supervisors[i].(phase := Serving)])
  }

  function SupClose(s: State, i: Id): State
    requires Live(s, i)
  {
    s.(owned := s.owned - {BySupervisor(i)}, closes := ClosedBy(s.closes, s.owned, BySupervisor(i)),
       supervisors := s.supervisors[i := s.supervisors[i].(phase := Closed)])
  }

  /** The lifespan failed while it was being entered. */
  predicate SupFailsOk(s: State, i: Id) {
    i in s.supervisors && s.supervisors[i].phase.Entering? && !s.supervisors[i].cancelled
  }

  /** `await self._idle.wait()` returned inside drained(). */
  predicate SupDrainedOk(s: State, i: Id) {
    && i in s.supervisors && s.supervisors[i].phase.Serving? && s.supervisors[i].stop
    && s.supervisors[i].active == 0
  }

  function SupDrained(s: State, i: Id): State
    requires SupDrainedOk(s, i)
  {
    s.(supervisors := s.supervisors[i := s.supervisors[i].(drained := true)])
  }

  datatype EndReason = Drained | Deadline | Died | Cancelled

  /** A supervisor leaves its lifespan without telling its slot. */
  predicate SupEndOk(s: State, i: Id, why: EndReason) {
    && Live(s, i)
    && var p := s.supervisors[i];
       match why
       case Drained => p.phase.Serving? && !p.cancelled && p.drained
       case Deadline => p.phase.Serving? && !p.cancelled && p.stop
       case Died => p.phase.Serving? && !p.cancelled && p.stop
       case Cancelled => p.cancelled
  }

  /** An installed app fails while serving, or raises while it leaves its lifespan because shutdown
      has cancelled it: on_failed, then the close in `finally`.  Assumed not to happen during
      start() or a reload. */
  predicate SupDiesOk(s: State, i: Id) {
    && (s.control.Running? || s.control.StopRetries? || s.control.StopSupervisors?)
    && i in s.supervisors && s.supervisors[i].phase.Serving?
    && !s.supervisors[i].stop && s.supervisors[i].place.AtSlot?
    && InTable(s, s.supervisors[i].place.slot) && s.slots[s.supervisors[i].place.slot].sup == Some(i)
  }

  /** runtime._serving_failed followed by the supervisor's close. */
  function SupDies(s: State, i: Id): State
    requires SupDiesOk(s, i)
  {
    var k := s.supervisors[i].place.slot;
    var sl := s.slots[k];
    var spawn := sl.name in s.registry && sl.retry.None?;
    s.(slots := s.slots[k := sl.(app := None, sup := None, retry := if spawn then Some(s.next) else sl.retry)],
       failed := s.failed + {sl.name},
       retries := if spawn then s.retries[s.next := Retry(k, Sleeping, false, EntryOf(s.prints, sl.name))]
                  else s.retries,
       next := if spawn then s.next + 1 else s.next,
       owned := s.owned - {BySupervisor(i)},
       closes := ClosedBy(s.closes, s.owned, BySupervisor(i)),
       supervisors := s.supervisors[i := s.supervisors[i].(phase := Closed, place := Gone)],
       lateDeaths := if Stopping(s.control) then s.lateDeaths + 1 else s.lateDeaths)
  }

  /** A done callback: `self._retiring.discard`. */
  predicate ForgetOk(s: State, r: TaskRef) {
    match r
    case RetryTask(t) => t !in s.retries
    case SupervisorTask(i) => !Live(s, i)
  }

  function Forget(s: State, r: TaskRef): State { s.(retiring := s.retiring - {r}) }

  // ------------------------------------------------------------------ requests

  /** SurfaceSlot.__call__ and _Counted.__call__ up to the first await of the app. */
  predicate RequestOk(s: State, n: Name) {
    HasSlot(s, n) && SlotOf(s, n).app.Some? && SlotOf(s, n).app.value in s.supervisors
  }

  function Request(s: State, n: Name): State
    requires RequestOk(s, n)
  {
    var i := SlotOf(s, n).app.value;
    s.(supervisors := s.supervisors[i := s.supervisors[i].(active := s.supervisors[i].active + 1)])
  }

  predicate RequestDoneOk(s: State, i: Id) { i in s.supervisors && s.supervisors[i].active > 0 }

  function RequestDone(s: State, i: Id): State
    requires RequestDoneOk(s, i)
  {
    s.(supervisors := s.supervisors[i := s.supervisors[i].(active := s.supervisors[i].active - 1)])
  }

  // ------------------------------------------------------------------ retries

  predicate RetryAt(s: State, t: Id) {
    t in s.retries && !s.retries[t].cancelled && InTable(s, s.retries[t].slot)
  }

  function RetryMoves(retries: map<Id, Retry>, t: Id, p: RetryPhase): map<Id, Retry> {
    if t in retries then retries[t := retries[t].(phase := p)] else retries
  }

  /** runtime._retry_done: only this task's own handle. */
  function RetryDone(sl: Slot, t: Id): Slot {
    if sl.retry == Some(t) then sl.(retry := None) else sl
  }

  predicate RetryWakeOk(s: State, t: Id) { RetryAt(s, t) && s.retries[t].phase.Sleeping? }

  function RetryWake(s: State, t: Id): State { s.(retries := RetryMoves(s.retries, t, Building)) }

  predicate RetryBuiltOk(s: State, t: Id) { RetryAt(s, t) && s.retries[t].phase.Building? }

  function RetryBuilt(s: State, t: Id): State
    requires RetryBuiltOk(s, t)
  {
    s.(owned := s.owned[ByRetry(t) := s.next], closes := s.closes[s.next := 0], next := s.next + 1,
       origin := s.origin[s.next := s.retries[t].entry],
       retries := RetryMoves(s.retries, t, Finishing))
  }

  predicate RetryHolds(s: State, t: Id) { RetryAt(s, t) && s.retries[t].phase.Finishing? }

  function RetryRefuse(s: State, t: Id, fault: bool): State {
    s.(owned := s.owned - {ByRetry(t)}, closes := ClosedBy(s.closes, s.owned, ByRetry(t)),
       retries := RetryMoves(s.retries, t, Refusing(fault)))
  }

  predicate RetryFailOk(s: State, t: Id) {
    RetryAt(s, t) && (s.retries[t].phase.Building? || s.retries[t].phase == Refusing(false))
  }

  /** The `except` of the attach in _retry, for a fault that may clear on its own. */
  function RetryFail(s: State, t: Id): State
    requires RetryFailOk(s, t)
  {
    var sl := s.slots[s.retries[t].slot];
    s.(failed := if sl.app.None? then s.failed + {sl.name} else s.failed,
       retries := RetryMoves(s.retries, t, Sleeping))
  }

  predicate RetryFaultOk(s: State, t: Id) {
    RetryAt(s, t) && (s.retries[t].phase.Building? || s.retries[t].phase == Refusing(true))
  }

  /** The same `except`, for a configuration fault: the loop ends. */
  function RetryFault(s: State, t: Id): State
    requires RetryFaultOk(s, t)
  {
    var k := s.retries[t].slot;
    var pending := s.slots[k].app.None?;
    var sl := RetryDone(s.slots[k], t);
    s.(failed := if pending then s.failed + {sl.name} else s.failed,
       configFaults := if pending then s.configFaults + {sl.name} else s.configFaults,
       slots := s.slots[k := if pending then sl.(configFault := true) else sl],
       retries := s.retries - {t})
  }

  function RetryInstall(s: State, t: Id): State {
    s.(owned := Passed(s.owned, ByRetry(t), BySupervisor(s.next)),
       supervisors := s.supervisors[s.next := Entered(AtRetry(t))],
       retries := RetryMoves(s.retries, t, Starting(s.next)),
       next := s.next + 1)
  }

  /** The task's own `start()` can go on.  Whether the slot is still in the table is _install's
      own test; `NeverInstallsOnRemoved` shows it always is. */
  predicate RetryReady(s: State, t: Id) {
    && t in s.retries && !s.retries[t].cancelled && s.retries[t].phase.Starting?
    && s.retries[t].phase.sup in s.supervisors
    && s.supervisors[s.retries[t].phase.sup].phase.Serving?
  }

  predicate RetryInstalledOk(s: State, t: Id) { RetryReady(s, t) && InTable(s, s.retries[t].slot) }

  function RetryInstalled(s: State, t: Id): State
    requires RetryInstalledOk(s, t)
  {
    var k := s.retries[t].slot;
    var i := s.retries[t].phase.sup;
    var n := s.slots[k].name;
    s.(slots := s.slots[k := RetryDone(Installed(s.slots[k], i), t)],
       supervisors := SwapSup(s.supervisors, k, i, s.slots[k].sup),
       retiring := TrackSup(s.retiring, s.slots[k].sup),
       retries := s.retries - {t},
       failed := s.failed - {n}, configFaults := s.configFaults - {n}, reloadFailed := s.reloadFailed - {n})
  }

  predicate RetryInstallFailedOk(s: State, t: Id) {
    && RetryAt(s, t) && s.retries[t].phase.Starting? && s.retries[t].phase.sup in s.supervisors
    && s.supervisors[s.retries[t].phase.sup].phase.Closed?
  }

  function RetryInstallFailed(s: State, t: Id): State { s.(retries := RetryMoves(s.retries, t, Sleeping)) }

  /** The pending cancellation reaches the task at the await it is suspended at. */
  predicate RetryCancelledOk(s: State, t: Id) { t in s.retries && s.retries[t].cancelled }

  /** ... inside Supervisor.start: it cancels the supervisor and awaits its end. */
  predicate RetryUnwindOk(s: State, t: Id) { RetryCancelledOk(s, t) && s.retries[t].phase.Starting? }

  function RetryUnwind(s: State, t: Id): State
    requires RetryUnwindOk(s, t)
  {
    var i := s.retries[t].phase.sup;
    s.(supervisors := CancelSup(s.supervisors, i), retries := RetryMoves(s.retries, t, Unwinding(i)))
  }

  /** ... anywhere else, or the awaited supervisor has ended: the task ends, closing a backend
      that only it holds. */
  predicate RetryEndsOk(s: State, t: Id) {
    && RetryCancelledOk(s, t) && !s.retries[t].phase.Starting?
    && (s.retries[t].phase.Unwinding? ==>
          s.retries[t].phase.sup in s.supervisors && s.supervisors[s.retries[t].phase.sup].phase.Closed?)
  }

  function RetryEnds(s: State, t: Id): State {
    s.(owned := s.owned - {ByRetry(t)}, closes := ClosedBy(s.closes, s.owned, ByRetry(t)),
       retries := s.retries - {t})
  }

  // ------------------------------------------------------------------ reload

  predicate Reloadable(s: State) { s.control.Running? }

  /** load_registry, check_registry or a fingerprint refused the file. */
  function ReloadRefused(s: State): State { s.(lastRefused := true) }

  function ReloadBegin(s: State, incoming: map<Name, string>): State {
    s.(control := Gathering(incoming), children := map n | n in Targets(s.prints, incoming) :: ChildBuilding)
  }

  predicate ReloadGatheredOk(s: State) { s.control.Gathering? && ChildrenDone(s.children) }

  function ReloadGathered(s: State): State
    requires ReloadGatheredOk(s)
  {
    s.(control := Applying(s.control.incoming, None))
  }

  /** `slot = SurfaceSlot(name); self.table.put(slot)` for a target the table lacks. */
  predicate ReloadPutOk(s: State, n: Name) {
    s.control.Applying? && s.control.cur.None? && n in s.children && n !in s.table
  }

  function ReloadPut(s: State, n: Name): State {
    s.(table := s.table[n := s.next], slots := s.slots[s.next := Slot(n, None, None, None, false)],
       next := s.next + 1)
  }

  predicate ReloadTarget(s: State, n: Name) {
    s.control.Applying? && s.control.cur.None? && n in s.children && HasSlot(s, n)
  }

  predicate ReloadInstallOk(s: State, n: Name) { ReloadTarget(s, n) && s.children[n].ChildOk? }

  /** The slot's retry cancelled, the backend popped from `built` and given to a supervisor. */
  function ReloadInstall(s: State, n: Name): State
    requires ReloadInstallOk(s, n)
  {
    var sl := SlotOf(s, n);
    s.(control := Applying(s.control.incoming, Some(Install(n, s.next))),
       children := s.children - {n},
       slots := s.slots[s.table[n] := sl.(retry := None)],
       retries := CancelTask(s.retries, sl.retry),
       retiring := TrackTask(s.retiring, sl.retry),
       owned := Passed(s.owned, InBuilt(n), BySupervisor(s.next)),
       supervisors := s.supervisors[s.next := Entered(AtControl)],
       next := s.next + 1)
  }

  /** runtime._attach_failed on a slot whose retry was just cancelled. */
  function FailedSlot(sl: Slot, fault: bool, task: Id): Slot {
    sl.(configFault := if sl.app.None? then fault else sl.configFault,
        retry := if fault then None else Some(task))
  }

  function FaultMarks(faults: set<Name>, sl: Slot, fault: bool): set<Name> {
    if sl.app.Some? then faults else if fault then faults + {sl.name} else faults - {sl.name}
  }

  predicate ReloadAttachFailedOk(s: State, n: Name) { ReloadTarget(s, n) && s.children[n].ChildFailed? }

  function ReloadAttachFailed(s: State, n: Name): State
    requires ReloadAttachFailedOk(s, n)
  {
    var k := s.table[n];
    var sl := s.slots[k];
    var fault := s.children[n].fault;
    var cancelled := CancelTask(s.retries, sl.retry);
    s.(children := s.children - {n},
       slots := s.slots[k := FailedSlot(sl, fault, s.next)],
       retries := if fault then cancelled
                  else cancelled[s.next := Retry(k, Sleeping, false, EntryOf(s.control.incoming, n))],
       retiring := TrackTask(s.retiring, sl.retry),
       failed := if sl.app.None? then s.failed + {n} else s.failed,
       configFaults := FaultMarks(s.configFaults, sl, fault),
       reloadFailed := if sl.app.None? then s.reloadFailed else s.reloadFailed + {n},
       next := if fault then s.next else s.next + 1)
  }

  predicate ReloadInstalledOk(s: State) { s.control.Applying? && AppReady(s) }

  function ReloadInstalled(s: State): State
    requires ReloadInstalledOk(s)
  {
    var c := s.control.cur.value;
    var k := s.table[c.name];
    s.(control := Applying(s.control.incoming, None),
       slots := s.slots[k := Installed(s.slots[k], c.sup)],
       supervisors := SwapSup(s.supervisors, k, c.sup, s.slots[k].sup),
       retiring := TrackSup(s.retiring, s.slots[k].sup),
       failed := s.failed - {c.name}, configFaults := s.configFaults - {c.name},
       reloadFailed := s.reloadFailed - {c.name})
  }

  predicate ReloadInstallFailedOk(s: State) { s.control.Applying? && AppFailed(s) }

  function ReloadInstallFailed(s: State, fault: bool): State
    requires ReloadInstallFailedOk(s)
  {
    var n := s.control.cur.value.name;
    var k := s.table[n];
    var sl := s.slots[k];
    s.(control := Applying(s.control.incoming, None),
       slots := s.slots[k := FailedSlot(sl, fault, s.next)],
       retries := if fault then s.retries
                  else s.retries[s.next := Retry(k, Sleeping, false, EntryOf(s.control.incoming, n))],
       failed := if sl.app.None? then s.failed + {n} else s.failed,
       configFaults := FaultMarks(s.configFaults, sl, fault),
       reloadFailed := if sl.app.None? then s.reloadFailed else s.reloadFailed + {n},
       next := if fault then s.next else s.next + 1)
  }

  predicate ReloadRemoveOk(s: State, n: Name) {
    && s.control.Applying? && s.control.cur.None? && s.children == map[]
    && n in s.prints && n !in s.control.incoming && HasSlot(s, n)
  }

  /** runtime._remove */
  function ReloadRemove(s: State, n: Name): State
    requires HasSlot(s, n)
  {
    var k := s.table[n];
    var sl := s.slots[k];
    s.(table := s.table - {n},
       slots := s.slots[k := sl.(retry := None)],
       retries := CancelTask(s.retries, sl.retry),
       supervisors := RetireSup(s.supervisors, sl.sup),
       retiring := TrackSup(TrackTask(s.retiring, sl.retry), sl.sup),
       failed := s.failed - {n}, configFaults := s.configFaults - {n}, reloadFailed := s.reloadFailed - {n})
  }

  predicate ReloadDoneOk(s: State) {
    && s.control.Applying? && s.control.cur.None? && s.children == map[]
    && (forall n :: n in s.table ==> n in s.control.incoming)
  }

  function ReloadDone(s: State): State
    requires ReloadDoneOk(s)
  {
    s.(registry := s.control.incoming.Keys, prints := s.control.incoming, lastRefused := false, control := Running)
  }

  // ------------------------------------------------------------------ cancellation and shutdown

  /** The names whose branch of the gather has attached. */
  predicate Attached(s: State, n: Name) { n in s.children && s.children[n].ChildOk? }

  /** boot() is cancelled at its one await, the gather in build_surfaces.  Nothing there catches
      that: `built` is dropped with what it holds. */
  predicate BootCancelOk(s: State) { s.control.Booting? && s.table == map[] }

  function BootCancel(s: State): State {
    s.(control := BootAborting,
       lost := s.lost + set h | h in s.owned && h.InBuilt? :: s.owned[h],
       owned := map h | h in s.owned && !h.InBuilt? :: s.owned[h],
       children := map n | n in s.children && !s.children[n].ChildOk? :: s.children[n])
  }

  /** The gather has returned, a branch with something that is no Exception: build_surfaces closes
      what is in `built` and raises it. */
  predicate BootRefuseOk(s: State) { s.control.Booting? && s.table == map[] && ChildrenDone(s.children) }

  function BootRefuse(s: State): State { s.(control := BootAborting) }

  /** start() or the reload is cancelled. */
  predicate AbortOk(s: State) { s.control.StartUp? || s.control.Gathering? || s.control.Applying? }

  function Abort(s: State): State {
    var cur := Current(s.control);
    s.(control := Aborting(cur),
       supervisors := if cur.Some? then CancelSup(s.supervisors, cur.value.sup) else s.supervisors)
  }

  /** A branch of the cancelled gather ends; one that holds a backend closes it. */
  predicate AbortChildOk(s: State, n: Name) {
    (s.control.Aborting? || s.control.BootAborting?) && n in s.children && !s.children[n].ChildOk?
  }

  function AbortChild(s: State, n: Name): State {
    s.(owned := s.owned - {ByChild(n)}, closes := ClosedBy(s.closes, s.owned, ByChild(n)),
       children := s.children - {n})
  }

  predicate AbortWaitedOk(s: State) { s.control.Aborting? && AppFailed(s) }

  function AbortWaited(s: State): State { s.(control := Aborting(None)) }

  /** One turn of `_close_all(built.values())`. */
  predicate AbortCloseOk(s: State, n: Name) {
    && (s.control == Aborting(None) || s.control.BootAborting?) && n in s.children
    && (forall m :: m in s.children ==> s.children[m].ChildOk?)
  }

  function AbortClose(s: State, n: Name): State {
    s.(owned := s.owned - {InBuilt(n)}, closes := ClosedBy(s.closes, s.owned, InBuilt(n)),
       children := s.children - {n})
  }

  /** shutdown() once no reload is in flight: it cancels the retries the table holds. */
  predicate ShutdownOk(s: State) {
    || s.control.Built? || s.control.Running?
    || (s.control == Aborting(None) && s.children == map[])
    || (s.control.StartUp? && AppFailed(s))   // an install failed and start() raised
  }

  /** [s.retry for s in self.table.slots.values() if s.retry is not None] */
  predicate TableRetry(table: map<Name, Id>, slots: map<Id, Slot>, r: Retry, t: Id) {
    && r.slot in slots && slots[r.slot].retry == Some(t)
    && slots[r.slot].name in table && table[slots[r.slot].name] == r.slot
  }

  function Shutdown(s: State): State {
    s.(control := StopRetries(set t | t in s.retries && TableRetry(s.table, s.slots, s.retries[t], t)),
       retries := map t | t in s.retries ::
         if TableRetry(s.table, s.slots, s.retries[t], t) then s.retries[t].(cancelled := true) else s.retries[t])
  }

  predicate StopAllOk(s: State) {
    s.control.StopRetries? && forall t :: t in s.control.wait ==> t !in s.retries
  }

  /** The supervisors' tasks of the table's slots, then those already retiring. */
  predicate TableSup(table: map<Name, Id>, slots: map<Id, Slot>, p: Supervisor, i: Id) {
    && p.place.AtSlot? && p.place.slot in slots && slots[p.place.slot].sup == Some(i)
    && slots[p.place.slot].name in table && table[slots[p.place.slot].name] == p.place.slot
  }

  function StopTasks(s: State): set<TaskRef> {
    (set i | i in s.supervisors && TableSup(s.table, s.slots, s.supervisors[i], i) :: SupervisorTask(i)) + s.retiring
  }

  function StopAll(s: State): State {
    var tasks := StopTasks(s);
    s.(control := StopSupervisors(tasks),
       supervisors := map i | i in s.supervisors ::
         if SupervisorTask(i) in tasks then s.supervisors[i].(cancelled := true) else s.supervisors[i],
       retries := map t | t in s.retries ::
         if RetryTask(t) in tasks then s.retries[t].(cancelled := true) else s.retries[t])
  }

  /** `await asyncio.gather(*tasks)` returned. */
  predicate AllStopped(s: State) {
    && s.control.StopSupervisors?
    && (forall t :: t in s.retries ==> RetryTask(t) !in s.control.tasks)
    && (forall i :: i in s.supervisors ==> SupervisorTask(i) !in s.control.tasks || s.supervisors[i].phase.Closed?)
  }

  predicate CloseBootedOk(s: State, n: Name) { AllStopped(s) && InBooted(n) in s.owned }

  function CloseBooted(s: State, n: Name): State {
    s.(owned := s.owned - {InBooted(n)}, closes := ClosedBy(s.closes, s.owned, InBooted(n)))
  }

  predicate FinishOk(s: State) {
    AllStopped(s) && forall h :: h in s.owned ==> !h.InBooted?
  }

  function Finish(s: State): State { s.(control := Down) }
}
