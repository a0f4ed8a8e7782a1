/** That no coroutine of the runtime is ever stuck: whatever it waits for can go on. */
module RuntimeProgress {
  import opened Wrappers
  import opened RuntimeState
  import opened RuntimeInvariant
  import opened RuntimeEvents
  import opened RuntimeTheorems

  /** A step of boot(), start(), reload() or a branch of a gather. */
  predicate Advances(e: Event) { e.OfBoot? || e.OfAttach? || (e.OfReload? && !e.reload.DoReloadRefused?) }

  /** A step of supervisor i towards serving, or failing to. */
  predicate Starts(e: Event, i: Id) { e == OfSup(DoSupReady(i)) || e == OfSup(DoSupFails(i)) }

  /** The coroutine itself goes on, or the app it awaits; or start() has raised because that failed. */
  predicate ControlGoesOn(s: State, e: Event) {
    || Advances(e)
    || (Current(s.control).Some? && Starts(e, Current(s.control).value.sup))
    || (e == OfStop(DoShutdown) && s.control.StartUp? && AppFailed(s))
  }

  predicate RetryGoesOn(s: State, t: Id, e: Event) {
    || (e.OfRetry? && e.retry.t == t)
    || (t in s.retries && s.retries[t].phase.Starting? && Starts(e, s.retries[t].phase.sup))
  }

  lemma BranchGoesOn(s: State, n: Name) returns (e: AttachEvent)
    requires Attaching(s, n) && !Done(s.children[n])
    ensures AttachOk(s, e)
  {
    match s.children[n]
    case ChildBuilding => e := DoChildBuilt(n);
    case ChildFinishing => e := DoChildAttach(n);
    case ChildRefusing(fault) => e := DoChildFail(n, fault);
  }

  lemma BootGoesOn(s: State) returns (e: Event)
    requires Names(s) && s.control.Booting?
    ensures Enabled(s, e) && Advances(e)
  {
    if n :| n in s.children && !Done(s.children[n]) {
      var a := BranchGoesOn(s, n);
      e := OfAttach(a);
    } else if s.children == map[] {
      e := OfBoot(DoBootDone);
    } else {
      var n := Member(s.children.Keys);
      assert n !in s.table;
      e := OfBoot(DoBootOne(n));
    }
  }

  lemma GatherGoesOn(s: State) returns (e: Event)
    requires s.control.Gathering?
    ensures Enabled(s, e) && Advances(e)
  {
    if n :| n in s.children && !Done(s.children[n]) {
      var a := BranchGoesOn(s, n);
      e := OfAttach(a);
    } else {
      e := OfReload(DoReloadGathered);
    }
  }

  /** The install that is awaited: its app may start or fail, or has done so. */
  lemma InstallGoesOn(s: State) returns (e: Event)
    requires Slotted(s) && Waited(s) && Current(s.control).Some? && (s.control.StartUp? || s.control.Applying?)
    ensures Enabled(s, e) && ControlGoesOn(s, e)
  {
    var c := Current(s.control).value;
    assert c.name in s.table && c.sup in s.supervisors;
    match s.supervisors[c.sup].phase
    case Entering => e := OfSup(DoSupReady(c.sup));
    case Serving => e := if s.control.StartUp? then OfBoot(DoStartInstalled) else OfReload(DoReloadInstalled);
    case Closed => e := if s.control.StartUp? then OfStop(DoShutdown) else OfReload(DoReloadInstallFailed(false));
  }

  lemma StartGoesOn(s: State) returns (e: Event)
    requires s.control == StartUp(None)
    ensures Enabled(s, e) && Advances(e)
  {
    if h :| h in s.owned && h.InBooted? {
      e := OfBoot(DoStartInstall(h.surface));
    } else if n :| n in s.failed && NeedsRetry(s, n) {
      e := OfBoot(DoStartRetry(n));
    } else {
      e := OfBoot(DoStartDone);
    }
  }

  lemma ApplyGoesOn(s: State) returns (e: Event)
    requires Slotted(s) && Names(s) && s.control.Applying? && s.control.cur.None?
    ensures Enabled(s, e) && Advances(e)
  {
    if s.children != map[] {
      assert s.children.Keys != {};
      var n := Member(s.children.Keys);
      assert s.children[n].ChildOk? || s.children[n].ChildFailed?;
      if n !in s.table {
        e := OfReload(DoReloadPut(n));
      } else if s.children[n].ChildOk? {
        e := OfReload(DoReloadInstall(n));
      } else {
        e := OfReload(DoReloadAttachFailed(n));
      }
    } else if n :| n in s.table && n !in s.control.incoming {
      assert n in s.prints && HasSlot(s, n);
      e := OfReload(DoReloadRemove(n));
    } else {
      e := OfReload(DoReloadDone);
    }
  }

  /** Boot, start and a reload can always go on, by themselves or by the app they wait for: there is no
      registry, no failure and no interleaving in which they hang. */
  lemma NeverStuck(prints: map<Name, string>, es: seq<Event>, s: State)
    requires Reached(prints, es, s)
    requires s.control.Booting? || s.control.StartUp? || s.control.Gathering? || s.control.Applying?
    ensures exists e :: Enabled(s, e) && ControlGoesOn(s, e)
  {
    ReachedInv(prints, es, s);
    var e: Event;
    if s.control.Booting? {
      e := BootGoesOn(s);
    } else if s.control.Gathering? {
      e := GatherGoesOn(s);
    } else if Current(s.control).Some? {
      e := InstallGoesOn(s);
    } else if s.control.StartUp? {
      e := StartGoesOn(s);
    } else {
      e := ApplyGoesOn(s);
    }
    assert Enabled(s, e);
  }

  /** A retry can always go on, or the app it is starting can. */
  lemma RetryNeverStuck(prints: map<Name, string>, es: seq<Event>, s: State, t: Id)
    requires Reached(prints, es, s) && t in s.retries && !s.retries[t].cancelled
    ensures exists e :: Enabled(s, e) && RetryGoesOn(s, t, e)
  {
    ReachedInv(prints, es, s);
    assert Listed(s.table, s.slots, s.retries[t].slot);
    var e: Event;
    match s.retries[t].phase {
      case Sleeping => e := OfRetry(DoRetryWake(t));
      case Building => e := OfRetry(DoRetryBuilt(t));
      case Finishing => e := OfRetry(DoRetryInstall(t));
      case Refusing(fault) => e := OfRetry(if fault then DoRetryFault(t) else DoRetryFail(t));
      case Starting(i) => e := StartingGoesOn(s, t, i);
    }
    assert Enabled(s, e);
  }

  lemma StartingGoesOn(s: State, t: Id, i: Id) returns (e: Event)
    requires TasksStart(s.retries, s.supervisors) && RetryAt(s, t) && s.retries[t].phase == Starting(i)
    ensures Enabled(s, e) && RetryGoesOn(s, t, e)
  {
    assert i in s.supervisors && !s.supervisors[i].cancelled;
    match s.supervisors[i].phase
    case Entering => e := OfSup(DoSupReady(i));
    case Serving => e := OfRetry(DoRetryInstalled(t));
    case Closed => e := OfRetry(DoRetryInstallFailed(t));
  }
}
