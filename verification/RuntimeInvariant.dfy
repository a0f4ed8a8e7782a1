/**
 What every reachable state of the surface runtime satisfies.  Each part names the tables it is
 about, so that a step keeps a part it does not touch without further proof.
*/
module RuntimeInvariant {
  import opened Wrappers
  import opened RuntimeState

  /** Each backend is held by one holder and never closed, or by none and closed once, or lost. */
  ghost predicate Ownership(owned: map<Holder, Id>, closes: map<Id, nat>, lost: set<Id>) {
    && (forall h, g :: h in owned && g in owned && owned[h] == owned[g] ==> h == g)
    && (forall h :: h in owned ==> owned[h] in closes && closes[owned[h]] == 0)
    && (forall b :: b in closes ==> closes[b] <= 1)
    && (forall b :: b in closes && closes[b] == 0 ==> b in lost || exists h :: h in owned && owned[h] == b)
    && (forall b :: b in lost ==> b in closes && closes[b] == 0)
    && (forall h :: h in owned ==> owned[h] !in lost)
  }

  ghost predicate Below<T>(m: map<Id, T>, next: Id) {
    forall k :: k in m ==> k < next
  }

  ghost predicate TasksBelow(control: Control, retiring: set<TaskRef>, next: Id) {
    && (forall t :: RetryTask(t) in retiring ==> t < next)
    && (control.StopRetries? ==> forall t :: t in control.wait ==> t < next)
  }

  // ------------------------------------------------------------------ the ledger and the tables

  ghost predicate RetriesHold(owned: map<Holder, Id>, retries: map<Id, Retry>) {
    forall t :: ByRetry(t) in owned <==> t in retries && retries[t].phase.Finishing?
  }

  ghost predicate ChildrenHold(owned: map<Holder, Id>, children: map<Name, Child>) {
    && (forall n :: ByChild(n) in owned <==> n in children && children[n].ChildFinishing?)
    && (forall n :: InBuilt(n) in owned <==> n in children && children[n].ChildOk?)
  }

  ghost predicate SupervisorsHold(owned: map<Holder, Id>, supervisors: map<Id, Supervisor>) {
    forall i :: BySupervisor(i) in owned <==> i in supervisors && !supervisors[i].phase.Closed?
  }

  predicate BuiltLives(c: Control) { c.Booting? || c.BootAborting? || c.Gathering? || c.Applying? || c.Aborting? }

  predicate BootedLives(c: Control) { c.Booting? || c.Built? || c.StartUp? || c.Aborting? || Stopping(c) }

  predicate IsCurrent(cur: Option<Install>, n: Name) { cur.Some? && cur.value.name == n }

  ghost predicate BootedHold(owned: map<Holder, Id>, table: map<Name, Id>, control: Control) {
    forall n :: InBooted(n) in owned ==>
      && n in table && BootedLives(control) && !control.Down?
      && (control.StartUp? ==> !IsCurrent(control.cur, n))
  }

  // ------------------------------------------------------------------ supervisors and slots

  ghost predicate TableOk(table: map<Name, Id>, slots: map<Id, Slot>) {
    forall n :: n in table ==> table[n] in slots && slots[table[n]].name == n
  }

  predicate Listed(table: map<Name, Id>, slots: map<Id, Slot>, k: Id) {
    k in slots && slots[k].name in table && table[slots[k].name] == k
  }

  /** A slot's app and supervisor are set together; those of a slot in the table are its own. */
  ghost predicate SlotsPlaced(table: map<Name, Id>, slots: map<Id, Slot>, supervisors: map<Id, Supervisor>) {
    forall k :: k in slots ==>
      && slots[k].app == slots[k].sup
      && (slots[k].sup.Some? ==>
            && slots[k].sup.value in supervisors
            && !supervisors[slots[k].sup.value].phase.Entering?
            && (if Listed(table, slots, k) then supervisors[slots[k].sup.value].place == AtSlot(k)
                else supervisors[slots[k].sup.value].place.Retired?))
  }

  ghost predicate SupShape(p: Supervisor, stopping: bool) {
    && (p.drained ==> p.stop && p.active == 0)
    && (p.stop <==> p.place.Retired?)
    && (p.place.AtSlot? || p.place.Retired? ==> !p.phase.Entering?)
    && (p.place.Gone? ==> p.phase.Closed?)
    && (p.place.AtSlot? && !stopping ==> p.phase.Serving? && !p.cancelled)
  }

  ghost predicate SupShapes(supervisors: map<Id, Supervisor>, stopping: bool) {
    forall i :: i in supervisors ==> SupShape(supervisors[i], stopping)
  }

  ghost predicate AtSlots(table: map<Name, Id>, slots: map<Id, Slot>, supervisors: map<Id, Supervisor>) {
    forall i :: i in supervisors && supervisors[i].place.AtSlot? ==>
      Listed(table, slots, supervisors[i].place.slot) && slots[supervisors[i].place.slot].sup == Some(i)
  }

  ghost predicate AtRetries(supervisors: map<Id, Supervisor>, retries: map<Id, Retry>) {
    forall i :: i in supervisors && supervisors[i].place.AtRetry? && !supervisors[i].phase.Closed? ==>
      && supervisors[i].place.task in retries
      && var p := retries[supervisors[i].place.task].phase;
         p == Starting(i) || p == Unwinding(i)
  }

  ghost predicate AtControls(supervisors: map<Id, Supervisor>, cur: Option<Install>) {
    forall i :: i in supervisors && supervisors[i].place.AtControl? && !supervisors[i].phase.Closed? ==>
      cur.Some? && cur.value.sup == i
  }

  ghost predicate AtRetiring(supervisors: map<Id, Supervisor>, retiring: set<TaskRef>) {
    && (forall i :: i in supervisors && supervisors[i].place.Retired? && !supervisors[i].phase.Closed? ==>
          SupervisorTask(i) in retiring)
    && (forall i :: SupervisorTask(i) in retiring ==> i in supervisors && supervisors[i].place.Retired?)
  }

  ghost predicate CurrentOk(control: Control, table: map<Name, Id>, supervisors: map<Id, Supervisor>) {
    Current(control).Some? ==>
      var c := Current(control).value;
      && c.name in table && c.sup in supervisors && supervisors[c.sup].place.AtControl?
      && (supervisors[c.sup].cancelled <==> control.Aborting?)
  }

  // ------------------------------------------------------------------ retry tasks

  ghost predicate TasksPlaced(table: map<Name, Id>, slots: map<Id, Slot>, retries: map<Id, Retry>) {
    forall t :: t in retries ==>
      && retries[t].slot in slots
      && (!retries[t].cancelled ==>
            Listed(table, slots, retries[t].slot) && slots[retries[t].slot].retry == Some(t))
  }

  /** A task slot.retry names is alive, its slot's own, and not cancelled. */
  ghost predicate HandlesLive(table: map<Name, Id>, slots: map<Id, Slot>, retries: map<Id, Retry>) {
    forall k :: k in slots && slots[k].retry.Some? ==>
      && Listed(table, slots, k) && slots[k].retry.value in retries
      && retries[slots[k].retry.value].slot == k
      && !retries[slots[k].retry.value].cancelled
  }

  ghost predicate CancelledTracked(retries: map<Id, Retry>, retiring: set<TaskRef>) {
    forall t :: t in retries && retries[t].cancelled ==> RetryTask(t) in retiring
  }

  ghost predicate TasksStart(retries: map<Id, Retry>, supervisors: map<Id, Supervisor>) {
    forall t :: t in retries && (retries[t].phase.Starting? || retries[t].phase.Unwinding?) ==>
      && retries[t].phase.sup in supervisors
      && supervisors[retries[t].phase.sup].place == AtRetry(t)
      && (supervisors[retries[t].phase.sup].cancelled <==> retries[t].phase.Unwinding?)
      && (retries[t].phase.Unwinding? ==> retries[t].cancelled)
  }

  // ------------------------------------------------------------------ what an operator sees

  /** Which names the table holds. */
  ghost predicate Named(control: Control, registry: set<Name>, prints: map<Name, string>,
                        table: map<Name, Id>, children: map<Name, Child>) {
    && (children != map[] ==> BuiltLives(control))
    && match control
       case Booting =>
         registry == prints.Keys && table.Keys !! children.Keys && table.Keys + children.Keys == registry
       case Gathering(incoming) =>
         && table.Keys == registry == prints.Keys
         && children.Keys == Targets(prints, incoming)
       case Applying(incoming, cur) =>
         && (cur.Some? ==> cur.value.name !in children && cur.value.name in Targets(prints, incoming))
         && registry * incoming.Keys <= table.Keys
         && registry == prints.Keys
         && children.Keys <= Targets(prints, incoming)
         && (forall n :: n in children ==> children[n].ChildOk? || children[n].ChildFailed?)
         && table.Keys <= registry + incoming.Keys
         && incoming.Keys <= table.Keys + children.Keys
       case BootAborting => true
       case Aborting(_) => true
       case StopRetries(_) => true
       case StopSupervisors(_) => true
       case Down => true
       case _ => table.Keys == registry == prints.Keys
  }

  ghost predicate Marks(table: map<Name, Id>, slots: map<Id, Slot>, failed: set<Name>,
                        configFaults: set<Name>, reloadFailed: set<Name>) {
    && configFaults <= failed <= table.Keys
    && reloadFailed <= table.Keys
    && (forall n :: n in table && table[n] in slots ==> (slots[table[n]].configFault <==> n in configFaults))
  }

  /** The surface is serving, or it is failed and then has a retry or the configuration mark. */
  predicate Settled(sl: Slot, failed: bool, fault: bool) {
    && (sl.app.Some? <==> !failed)
    && (sl.app.None? ==> (sl.retry.Some? <==> !fault))
  }

  /** A surface between boot and start(): its backend waits in _booted, or it has failed. */
  predicate Pending(sl: Slot, failed: bool, booted: bool) {
    sl.app.None? && sl.retry.None? && (failed <==> !booted)
  }

  /** What the control coroutine still has to do with a surface. */
  datatype Todo = Nothing | Attended | Booted | Added

  function TodoOf(n: Name, cur: Option<Install>, registry: set<Name>, children: map<Name, Child>,
                  owned: map<Holder, Id>): Todo
  {
    if IsCurrent(cur, n) then Attended
    else if InBooted(n) in owned then Booted
    else if n in children && n !in registry then Added
    else Nothing
  }

  predicate StatusOf(control: Control, sl: Slot, failed: bool, fault: bool, todo: Todo) {
    match control
    case Booting => Pending(sl, failed, todo.Booted?)
    case Built => Pending(sl, failed, todo.Booted?)
    case StartUp(_) =>
      if todo.Nothing? then (sl.app.Some? <==> !failed) && (sl.retry.Some? ==> failed && !fault)
      else sl.app.None? && sl.retry.None? && !failed
    case Running => Settled(sl, failed, fault)
    case Gathering(_) => Settled(sl, failed, fault)
    case Applying(_, _) =>
      (match todo
       case Attended => sl.retry.None? && (sl.app.Some? ==> !failed)
       case Added => sl.app.None? && sl.retry.None? && !failed
       case _ => Settled(sl, failed, fault))
    case _ => true
  }

  ghost predicate Status(control: Control, table: map<Name, Id>, slots: map<Id, Slot>, failed: set<Name>,
                         faults: set<Name>, registry: set<Name>, children: map<Name, Child>,
                         owned: map<Holder, Id>) {
    forall n :: n in table && table[n] in slots ==>
      StatusOf(control, slots[table[n]], n in failed, n in faults,
               TodoOf(n, Current(control), registry, children, owned))
  }

  /** While shutdown waits, and no app has died since it began. */
  ghost predicate Teardown(control: Control, retries: map<Id, Retry>, retiring: set<TaskRef>,
                           supervisors: map<Id, Supervisor>) {
    match control
    case StopRetries(wait) =>
      forall t :: t in retries ==> retries[t].cancelled && (t in wait || RetryTask(t) in retiring)
    case StopSupervisors(tasks) =>
      && (forall t :: t in retries ==> retries[t].cancelled && RetryTask(t) in tasks)
      && (forall i :: i in supervisors && !supervisors[i].phase.Closed? ==>
            supervisors[i].place.AtRetry? || SupervisorTask(i) in tasks)
    case Down =>
      && (forall t :: t !in retries)
      && (forall i :: i in supervisors ==> supervisors[i].phase.Closed?)
    case _ => true
  }

  /** Which tasks shutdown has cancelled: those it waits for, or will. */
  ghost predicate Listing(control: Control, retries: map<Id, Retry>, retiring: set<TaskRef>,
                          supervisors: map<Id, Supervisor>, next: Id) {
    match control
    case StopRetries(wait) =>
      forall t :: t in retries && retries[t].cancelled ==> t in wait || RetryTask(t) in retiring
    case StopSupervisors(tasks) =>
      && (forall t :: t in retries ==> (retries[t].cancelled <==> RetryTask(t) in tasks))
      && (forall t :: RetryTask(t) in tasks ==> t < next)
      && (forall i :: SupervisorTask(i) in tasks ==> i in supervisors && supervisors[i].cancelled)
    case _ => true
  }

  /** A retry that shutdown has not cancelled was started by an app's death: its slot is empty. */
  ghost predicate OrphansAlone(stopping: bool, slots: map<Id, Slot>, retries: map<Id, Retry>) {
    stopping ==> forall t :: t in retries && !retries[t].cancelled ==>
      retries[t].slot in slots && slots[retries[t].slot].sup.None?
  }

  ghost predicate Owned(s: State) {
    && Ownership(s.owned, s.closes, s.lost) && Below(s.closes, s.next)
    && (s.lost != {} ==> s.control.BootAborting?)
  }

  ghost predicate Holds(s: State) {
    && RetriesHold(s.owned, s.retries)
    && ChildrenHold(s.owned, s.children)
    && SupervisorsHold(s.owned, s.supervisors)
    && BootedHold(s.owned, s.table, s.control)
  }

  ghost predicate Slotted(s: State) {
    && Below(s.slots, s.next) && Below(s.supervisors, s.next)
    && TableOk(s.table, s.slots)
    && SlotsPlaced(s.table, s.slots, s.supervisors)
    && SupShapes(s.supervisors, Stopping(s.control))
    && AtSlots(s.table, s.slots, s.supervisors)
  }

  ghost predicate Waited(s: State) {
    && AtRetries(s.supervisors, s.retries)
    && AtControls(s.supervisors, Current(s.control))
    && AtRetiring(s.supervisors, s.retiring)
    && CurrentOk(s.control, s.table, s.supervisors)
  }

  ghost predicate Tasks(s: State) {
    && Below(s.retries, s.next)
    && TasksBelow(s.control, s.retiring, s.next)
    && TasksPlaced(s.table, s.slots, s.retries)
    && TasksStart(s.retries, s.supervisors)
    && (!Stopping(s.control) ==> HandlesLive(s.table, s.slots, s.retries))
    && (!Stopping(s.control) ==> CancelledTracked(s.retries, s.retiring))
    && (s.control.Booting? || s.control.Built? ==> s.retries == map[])
  }

  ghost predicate Names(s: State) {
    Named(s.control, s.registry, s.prints, s.table, s.children)
  }

  ghost predicate Marked(s: State) {
    !Stopping(s.control) ==> Marks(s.table, s.slots, s.failed, s.configFaults, s.reloadFailed)
  }

  ghost predicate Shown(s: State) {
    Status(s.control, s.table, s.slots, s.failed, s.configFaults, s.registry, s.children, s.owned)
  }

  ghost predicate Late(s: State) {
    && (!Stopping(s.control) ==> s.lateDeaths == 0)
    && (s.lateDeaths == 0 ==> Teardown(s.control, s.retries, s.retiring, s.supervisors))
  }

  ghost predicate Tracked(s: State) {
    && Listing(s.control, s.retries, s.retiring, s.supervisors, s.next)
    && OrphansAlone(Stopping(s.control), s.slots, s.retries)
  }

  ghost predicate Inv(s: State) {
    && Owned(s) && Holds(s) && Slotted(s) && Waited(s) && Tasks(s)
    && Names(s) && Marked(s) && Shown(s) && Late(s) && Tracked(s)
  }

  // ------------------------------------------------------------------ the ledger's four moves

  lemma NewBackendOwns(owned: map<Holder, Id>, closes: map<Id, nat>, lost: set<Id>, h: Holder, b: Id)
    requires Ownership(owned, closes, lost) && h !in owned && b !in closes
    ensures Ownership(owned[h := b], closes[b := 0], lost)
  {
    var r, d := owned[h := b], closes[b := 0];
    forall c | c in d && d[c] == 0 && c !in lost ensures exists g :: g in r && r[g] == c {
      if c == b {
        assert r[h] == b;
      } else {
        var g :| g in owned && owned[g] == c;
        assert r[g] == c;
      }
    }
  }

  lemma CloseOwns(owned: map<Holder, Id>, closes: map<Id, nat>, lost: set<Id>, h: Holder)
    requires Ownership(owned, closes, lost)
    ensures Ownership(owned - {h}, ClosedBy(closes, owned, h), lost)
    ensures ClosedBy(closes, owned, h).Keys == closes.Keys
  {
    var r, d := owned - {h}, ClosedBy(closes, owned, h);
    forall c | c in d && d[c] == 0 && c !in lost ensures exists g :: g in r && r[g] == c {
      var g :| g in owned && owned[g] == c;
      assert r[g] == c;
    }
  }

  lemma PassOwns(owned: map<Holder, Id>, closes: map<Id, nat>, lost: set<Id>, from: Holder, to: Holder)
    requires Ownership(owned, closes, lost) && to !in owned
    ensures Ownership(Passed(owned, from, to), closes, lost)
  {
    var r := Passed(owned, from, to);
    forall c | c in closes && closes[c] == 0 && c !in lost ensures exists g :: g in r && r[g] == c {
      var g :| g in owned && owned[g] == c;
      assert r[if g == from then to else g] == c;
    }
  }

  /** What `built` holds is dropped unclosed. */
  lemma LoseOwns(owned: map<Holder, Id>, closes: map<Id, nat>, lost: set<Id>)
    requires Ownership(owned, closes, lost)
    ensures Ownership(map h | h in owned && !h.InBuilt? :: owned[h], closes,
                      lost + set h | h in owned && h.InBuilt? :: owned[h])
  {
    var r := map h | h in owned && !h.InBuilt? :: owned[h];
    forall c | c in closes && closes[c] == 0 && c !in lost && forall h :: h in owned && h.InBuilt? ==> owned[h] != c
      ensures exists g :: g in r && r[g] == c
    {
      var g :| g in owned && owned[g] == c;
      assert r[g] == c;
    }
  }
}
