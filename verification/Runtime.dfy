/**
 GatewayRuntime's own code: the stretches between two awaits that update the table and the
 bookkeeping, statement by statement.  Each contract gives every table it writes.  Where the code is
 a whole step of RuntimeState, or one with what its caller does around it, the contract equates the
 two: `Snapshot` is the machine's state with these tables, the `rest` of it being what no method here
 touches.
*/
module Runtime {
  import opened Wrappers
  import opened RuntimeState

  /** _Counted: an installed app that counts its in-flight requests. */
  class Counted {
    var active: nat
    var idle: bool

    ghost predicate Valid() reads this { idle <==> active == 0 }

    constructor ()
      ensures Valid() && active == 0
    {
      active, idle := 0, true;
    }

    /** __call__ up to the await of the app. */
    method Enter()
      requires Valid()
      modifies this
      ensures Valid() && active == old(active) + 1
    {
      active := active + 1;
      idle := false;
    }

    /** The `finally` of __call__. */
    method Leave()
      requires Valid() && active > 0
      modifies this
      ensures Valid() && active == old(active) - 1
    {
      active := active - 1;
      if active == 0 {
        idle := true;
      }
    }
  }

  /** The supervisor of slot k dies there. */
  predicate SupDiesAt(s: State, i: Id, k: Id) { SupDiesOk(s, i) && s.supervisors[i].place.slot == k }

  /** The `finally` of the supervisor, once its slot has been told. */
  function ThenCloses(s: State, i: Id): State
    requires i in s.supervisors
  {
    s.(owned := s.owned - {BySupervisor(i)}, closes := ClosedBy(s.closes, s.owned, BySupervisor(i)),
       supervisors := s.supervisors[i := s.supervisors[i].(phase := Closed, place := Gone)],
       lateDeaths := if Stopping(s.control) then s.lateDeaths + 1 else s.lateDeaths)
  }

  /** The branch of the gather for surface n, whose entry is `entry`, has failed. */
  predicate FailedAs(s: State, n: Name, fault: bool, entry: string) {
    ReloadAttachFailedOk(s, n) && s.children[n].fault == fault && EntryOf(s.control.incoming, n) == entry
  }

  /** _cancel_retry, then _attach_failed, are one step of the machine. */
  lemma TargetStep(s: State, n: Name, fault: bool, entry: string, r: State)
    requires FailedAs(s, n, fault, entry) && SlotOf(s, n).name == n
    requires var k := s.table[n];
      var sl := s.slots[k].(retry := None);
      var retries := CancelTask(s.retries, s.slots[k].retry);
      && r.slots == s.slots[k := sl][k := FailedSlot(sl, fault, s.next)]
      && r.retries == (if fault then retries else retries[s.next := Retry(k, Sleeping, false, entry)])
      && r.retiring == TrackTask(s.retiring, s.slots[k].retry)
      && r.next == (if fault then s.next else s.next + 1)
      && r.configFaults == FaultMarks(s.configFaults, sl, fault)
      && r.failed == (if sl.app.None? then s.failed + {n} else s.failed)
      && r.reloadFailed == (if sl.app.None? then s.reloadFailed else s.reloadFailed + {n})
    requires r == s.(slots := r.slots, retries := r.retries, retiring := r.retiring, next := r.next,
                     configFaults := r.configFaults, failed := r.failed, reloadFailed := r.reloadFailed)
    ensures r.(children := s.children - {n}) == ReloadAttachFailed(s, n)
  {
    var k := s.table[n];
    var sl := s.slots[k];
    assert FailedSlot(sl.(retry := None), fault, s.next) == FailedSlot(sl, fault, s.next);
    assert FaultMarks(s.configFaults, sl.(retry := None), fault) == FaultMarks(s.configFaults, sl, fault);
    assert r.slots == s.slots[k := FailedSlot(sl, fault, s.next)];
  }

  /** What the loops below rely on, all of it part of RuntimeInvariant.Inv: slots know their names,
      and no two slots share a supervisor or a retry task. */
  ghost predicate WiredIn(table: map<Name, Id>, slots: map<Id, Slot>, retries: map<Id, Retry>,
                          supervisors: map<Id, Supervisor>) {
    && (forall n :: n in table ==> table[n] in slots && slots[table[n]].name == n)
    && (forall n :: n in table && slots[table[n]].retry.Some? ==>
          && slots[table[n]].retry.value in retries
          && retries[slots[table[n]].retry.value].slot == table[n])
    && (forall n :: n in table && slots[table[n]].sup.Some? ==>
          && slots[table[n]].sup.value in supervisors
          && supervisors[slots[table[n]].sup.value].place == AtSlot(table[n]))
  }

  lemma RemoveWired(table: map<Name, Id>, slots: map<Id, Slot>, retries: map<Id, Retry>,
                    supervisors: map<Id, Supervisor>, n: Name)
    requires WiredIn(table, slots, retries, supervisors) && n in table
    ensures var k := table[n]; var sl := slots[k];
      WiredIn(table - {n}, slots[k := sl.(retry := None)], CancelTask(retries, sl.retry),
              RetireSup(supervisors, sl.sup))
    ensures forall m :: m in table && m != n ==>
      var sl := slots[table[m]];
      && table[m] != table[n]
      && (sl.sup.Some? ==> slots[table[n]].sup != sl.sup)
      && (sl.retry.Some? ==> slots[table[n]].retry != sl.retry)
  {
  }

  lemma RemoveStep(s: State, n: Name, r: State)
    requires HasSlot(s, n)
    requires var k := s.table[n]; var sl := s.slots[k];
      && r.table == s.table - {n} && r.slots == s.slots[k := sl.(retry := None)]
      && r.retries == CancelTask(s.retries, sl.retry) && r.supervisors == RetireSup(s.supervisors, sl.sup)
      && r.retiring == TrackSup(TrackTask(s.retiring, sl.retry), sl.sup)
      && r.failed == s.failed - {n} && r.configFaults == s.configFaults - {n}
      && r.reloadFailed == s.reloadFailed - {n}
    requires r == s.(table := r.table, slots := r.slots, retries := r.retries, supervisors := r.supervisors,
                     retiring := r.retiring, failed := r.failed, configFaults := r.configFaults,
                     reloadFailed := r.reloadFailed)
    ensures r == ReloadRemove(s, n)
  {
  }

  /** reload awaits the install of supervisor i for surface n, and its app is serving. */
  predicate ReadyFor(s: State, n: Name, i: Id) {
    ReloadInstalledOk(s) && s.control.cur == Some(Install(n, i))
  }

  lemma InstalledStep(s: State, n: Name, i: Id, r: State)
    requires ReadyFor(s, n, i)
    requires var k := s.table[n];
      && r.slots == s.slots[k := Installed(s.slots[k], i)]
      && r.supervisors == SwapSup(s.supervisors, k, i, s.slots[k].sup)
      && r.retiring == TrackSup(s.retiring, s.slots[k].sup)
      && r.failed == s.failed - {n} && r.configFaults == s.configFaults - {n}
      && r.reloadFailed == s.reloadFailed - {n}
    requires r == s.(slots := r.slots, supervisors := r.supervisors, retiring := r.retiring, failed := r.failed,
                     configFaults := r.configFaults, reloadFailed := r.reloadFailed)
    ensures r.(control := Applying(s.control.incoming, None)) == ReloadInstalled(s)
  {
  }

  class GatewayRuntime {
    var registry: set<Name>
    var prints: map<Name, string>
    var table: map<Name, Id>
    var slots: map<Id, Slot>
    var failed: set<Name>
    var configFaults: set<Name>
    var reloadFailed: set<Name>
    var supervisors: map<Id, Supervisor>
    var retries: map<Id, Retry>
    var retiring: set<TaskRef>
    var next: Id

    ghost function Snapshot(rest: State): State
      reads this
    {
      rest.(registry := registry, prints := prints, table := table, slots := slots, failed := failed,
            configFaults := configFaults, reloadFailed := reloadFailed, supervisors := supervisors,
            retries := retries, retiring := retiring, next := next)
    }

    ghost predicate Named()
      reads this
    {
      forall n :: n in table ==> table[n] in slots && slots[table[n]].name == n
    }

    ghost predicate Wired()
      reads this
    {
      Named() && WiredIn(table, slots, retries, supervisors)
    }

    /** _retire */
    method Retire(i: Id)
      requires i in supervisors
      modifies this`supervisors, this`retiring
      ensures supervisors == RetireSup(old(supervisors), Some(i))
      ensures retiring == TrackSup(old(retiring), Some(i))
    {
      supervisors := supervisors[i := supervisors[i].(stop := true, place := Retired)];
      retiring := retiring + {SupervisorTask(i)};
    }

    /** _cancel_retry */
    method CancelRetry(k: Id)
      requires k in slots && (slots[k].retry.Some? ==> slots[k].retry.value in retries)
      modifies this`slots, this`retries, this`retiring
      ensures slots == old(slots)[k := old(slots)[k].(retry := None)]
      ensures retries == CancelTask(old(retries), old(slots)[k].retry)
      ensures retiring == TrackTask(old(retiring), old(slots)[k].retry)
    {
      if slots[k].retry.Some? {
        var task := slots[k].retry.value;
        slots := slots[k := slots[k].(retry := None)];
        retries := retries[task := retries[task].(cancelled := true)];
        retiring := retiring + {RetryTask(task)};
      }
    }

    /** asyncio.create_task(self._retry(slot, ...)), stored in slot.retry. */
    method SpawnRetry(k: Id, entry: string)
      requires k in slots
      modifies this`slots, this`retries, this`next
      ensures slots == old(slots)[k := old(slots)[k].(retry := Some(old(next)))]
      ensures retries == old(retries)[old(next) := Retry(k, Sleeping, false, entry)]
      ensures next == old(next) + 1
    {
      slots := slots[k := slots[k].(retry := Some(next))];
      retries := retries[next := Retry(k, Sleeping, false, entry)];
      next := next + 1;
    }

    /** _install once `await sup.start()` has returned, on a slot still in the table. */
    method Install(k: Id, i: Id)
      requires k in slots && i in supervisors
      requires slots[k].sup.Some? ==> slots[k].sup.value in supervisors && slots[k].sup.value != i
      modifies this`slots, this`supervisors, this`retiring
      ensures slots == old(slots)[k := Installed(old(slots)[k], i)]
      ensures supervisors == SwapSup(old(supervisors), k, i, old(slots)[k].sup)
      ensures retiring == TrackSup(old(retiring), old(slots)[k].sup)
    {
      var previous := slots[k].sup;
      slots := slots[k := slots[k].(app := Some(i), sup := Some(i), configFault := false)];
      supervisors := supervisors[i := supervisors[i].(place := AtSlot(k))];
      if previous.Some? {
        Retire(previous.value);
      }
    }

    /** What follows every install that succeeded. */
    method Clear(n: Name)
      modifies this`failed, this`configFaults, this`reloadFailed
      ensures failed == old(failed) - {n} && configFaults == old(configFaults) - {n}
      ensures reloadFailed == old(reloadFailed) - {n}
    {
      failed := failed - {n};
      configFaults := configFaults - {n};
      reloadFailed := reloadFailed - {n};
    }

    /** The rest of _retry after its install: the task's own handle is dropped, then the marks. */
    method RetryFinishes(t: Id)
      requires t in retries && retries[t].phase.Starting? && retries[t].phase.sup in supervisors
      requires retries[t].slot in slots
      requires slots[retries[t].slot].sup.Some? ==>
        slots[retries[t].slot].sup.value in supervisors && slots[retries[t].slot].sup.value != retries[t].phase.sup
      modifies this`slots, this`supervisors, this`retiring, this`retries
      modifies this`failed, this`configFaults, this`reloadFailed
      ensures var k := old(retries)[t].slot; var i := old(retries)[t].phase.sup; var sl := old(slots)[k];
        && slots == old(slots)[k := RetryDone(Installed(sl, i), t)]
        && supervisors == SwapSup(old(supervisors), k, i, sl.sup)
        && retiring == TrackSup(old(retiring), sl.sup)
        && failed == old(failed) - {sl.name} && configFaults == old(configFaults) - {sl.name}
        && reloadFailed == old(reloadFailed) - {sl.name}
      ensures retries == old(retries) - {t}
      ensures forall rest :: RetryInstalledOk(old(Snapshot(rest)), t) ==>
        Snapshot(rest) == RetryInstalled(old(Snapshot(rest)), t)
    {
      var k := retries[t].slot;
      Install(k, retries[t].phase.sup);
      if slots[k].retry == Some(t) {
        slots := slots[k := slots[k].(retry := None)];
      }
      Clear(slots[k].name);
      retries := retries - {t};
    }

    /** _serving_failed: only if `i` still holds the slot, and only without a retry under way. */
    method ServingFailed(k: Id, i: Id)
      requires k in slots
      modifies this`slots, this`failed, this`retries, this`next
      ensures var sl := old(slots)[k];
        if !(sl.name in table && table[sl.name] == k && sl.sup == Some(i)) then
          slots == old(slots) && failed == old(failed) && retries == old(retries) && next == old(next)
        else
          && failed == old(failed) + {sl.name}
          && if sl.name in registry && sl.retry.None? then
               && slots == old(slots)[k := sl.(app := None, sup := None, retry := Some(old(next)))]
               && retries == old(retries)[old(next) := Retry(k, Sleeping, false, EntryOf(prints, sl.name))]
               && next == old(next) + 1
             else
               slots == old(slots)[k := sl.(app := None, sup := None)] && retries == old(retries) && next == old(next)
      ensures forall rest :: SupDiesAt(old(Snapshot(rest)), i, k) ==>
        SupDies(old(Snapshot(rest)), i) == ThenCloses(Snapshot(rest), i)
    {
      var name := slots[k].name;
      if name !in table || table[name] != k || slots[k].sup != Some(i) {
        return;
      }
      slots := slots[k := slots[k].(app := None, sup := None)];
      failed := failed + {name};
      if name in registry && slots[k].retry.None? {
        SpawnRetry(k, EntryOf(prints, name));
      }
    }

    /** _attach_failed, on a slot whose retry reload has just cancelled. */
    method AttachFailed(k: Id, fault: bool, entry: string)
      requires k in slots && slots[k].retry.None?
      modifies this`slots, this`failed, this`configFaults, this`reloadFailed, this`retries, this`next
      ensures slots == old(slots)[k := FailedSlot(old(slots)[k], fault, old(next))]
      ensures retries == if fault then old(retries) else old(retries)[old(next) := Retry(k, Sleeping, false, entry)]
      ensures next == if fault then old(next) else old(next) + 1
      ensures configFaults == FaultMarks(old(configFaults), old(slots)[k], fault)
      ensures var sl := old(slots)[k];
        && failed == (if sl.app.None? then old(failed) + {sl.name} else old(failed))
        && reloadFailed == (if sl.app.None? then old(reloadFailed) else old(reloadFailed) + {sl.name})
    {
      var name := slots[k].name;
      if slots[k].app.None? {
        failed := failed + {name};
        slots := slots[k := slots[k].(configFault := fault)];
        if fault {
          configFaults := configFaults + {name};
        } else {
          configFaults := configFaults - {name};
        }
      } else {
        reloadFailed := reloadFailed + {name};
      }
      if !fault {
        SpawnRetry(k, entry);
      }
    }

    /** reload's loop, for a target whose attach raised: its retry is cancelled, then the failure is
        recorded.  `rest.children` still holds the branch's result. */
    method TargetFailed(n: Name, fault: bool, entry: string)
      requires Wired() && n in table
      modifies this`slots, this`retries, this`retiring, this`next
      modifies this`failed, this`configFaults, this`reloadFailed
      ensures forall rest :: FailedAs(old(Snapshot(rest)), n, fault, entry) ==>
        Snapshot(rest).(children := rest.children - {n}) == ReloadAttachFailed(old(Snapshot(rest)), n)
    {
      CancelRetry(table[n]);
      AttachFailed(table[n], fault, entry);
      forall rest | FailedAs(old(Snapshot(rest)), n, fault, entry)
        ensures Snapshot(rest).(children := rest.children - {n}) == ReloadAttachFailed(old(Snapshot(rest)), n)
      {
        TargetStep(old(Snapshot(rest)), n, fault, entry, Snapshot(rest));
      }
    }

    /** reload's loop, for a target whose app is ready: _install goes on, and the marks are dropped. */
    method TargetInstalled(n: Name, i: Id)
      requires Wired() && n in table && i in supervisors
      requires slots[table[n]].sup != Some(i)
      modifies this`slots, this`supervisors, this`retiring
      modifies this`failed, this`configFaults, this`reloadFailed
      ensures forall rest :: ReadyFor(old(Snapshot(rest)), n, i) ==>
        Snapshot(rest).(control := Applying(rest.control.incoming, None)) == ReloadInstalled(old(Snapshot(rest)))
    {
      Install(table[n], i);
      Clear(n);
      forall rest | ReadyFor(old(Snapshot(rest)), n, i)
        ensures Snapshot(rest).(control := Applying(rest.control.incoming, None)) ==
            ReloadInstalled(old(Snapshot(rest)))
      {
        InstalledStep(old(Snapshot(rest)), n, i, Snapshot(rest));
      }
    }

    /** _remove; a name the table lacks is left alone. */
    method Remove(n: Name)
      requires Wired()
      modifies this`table, this`slots, this`retries, this`retiring, this`supervisors
      modifies this`failed, this`configFaults, this`reloadFailed
      ensures Wired()
      ensures table == old(table) - {n}
      ensures n !in old(table) ==>
        && slots == old(slots) && retries == old(retries) && supervisors == old(supervisors)
        && retiring == old(retiring) && failed == old(failed) && configFaults == old(configFaults)
        && reloadFailed == old(reloadFailed)
      ensures n in old(table) ==>
        var k := old(table)[n]; var sl := old(slots)[k];
        && slots == old(slots)[k := sl.(retry := None)]
        && retries == CancelTask(old(retries), sl.retry)
        && supervisors == RetireSup(old(supervisors), sl.sup)
        && retiring == TrackSup(TrackTask(old(retiring), sl.retry), sl.sup)
        && failed == old(failed) - {n} && configFaults == old(configFaults) - {n}
        && reloadFailed == old(reloadFailed) - {n}
      ensures forall m :: m in table ==>
        && slots[table[m]] == old(slots)[table[m]]
        && (slots[table[m]].sup.Some? ==>
              supervisors[slots[table[m]].sup.value] == old(supervisors)[slots[table[m]].sup.value])
        && (slots[table[m]].retry.Some? ==>
              retries[slots[table[m]].retry.value] == old(retries)[slots[table[m]].retry.value])
    {
      if n !in table {
        return;
      }
      var k := table[n];
      table := table - {n};
      CancelRetry(k);
      if slots[k].sup.Some? {
        Retire(slots[k].sup.value);
      }
      Clear(n);
      RemoveWired(old(table), old(slots), old(retries), old(supervisors), n);
    }

    /** One pass of `for name in d.removed: self._remove(name)`. */
    method TargetRemoved(n: Name)
      requires Wired() && n in table
      modifies this`table, this`slots, this`retries, this`retiring, this`supervisors
      modifies this`failed, this`configFaults, this`reloadFailed
      ensures forall rest :: Snapshot(rest) == ReloadRemove(old(Snapshot(rest)), n)
    {
      Remove(n);
      forall rest ensures Snapshot(rest) == ReloadRemove(old(Snapshot(rest)), n) {
        RemoveStep(old(Snapshot(rest)), n, Snapshot(rest));
      }
    }

    /** `for name in d.removed: self._remove(name)` at the end of reload().  Every removed
        surface has its app stopped, its retry cancelled, both left for shutdown to wait for; no
        other surface is touched. */
    method RemoveAll(removed: seq<Name>)
      requires Wired()
      modifies this`table, this`slots, this`retries, this`retiring, this`supervisors
      modifies this`failed, this`configFaults, this`reloadFailed
      ensures Wired()
      ensures table.Keys == old(table).Keys - (set n | n in removed)
      ensures forall n :: n in table ==>
        && old(table)[n] == table[n] && slots[table[n]] == old(slots)[table[n]]
        && (slots[table[n]].sup.Some? ==>
            supervisors[slots[table[n]].sup.value] == old(supervisors)[slots[table[n]].sup.value])
        && (slots[table[n]].retry.Some? ==>
            retries[slots[table[n]].retry.value] == old(retries)[slots[table[n]].retry.value])
      ensures forall n :: n in removed && n in old(table) ==>
        var sl := old(slots)[old(table)[n]];
        && (sl.sup.Some? ==> sl.sup.value in supervisors && supervisors[sl.sup.value].stop
                             && SupervisorTask(sl.sup.value) in retiring)
        && (sl.retry.Some? ==> sl.retry.value in retries && retries[sl.retry.value].cancelled
                               && RetryTask(sl.retry.value) in retiring)
        && n !in failed && n !in configFaults && n !in reloadFailed
      ensures failed <= old(failed) && configFaults <= old(configFaults) && reloadFailed <= old(reloadFailed)
    {
      var i := 0;
      while i < |removed|
        invariant 0 <= i <= |removed|
        invariant Wired()
        invariant table.Keys == old(table).Keys - (set n | n in removed[..i])
        invariant forall n :: n in table ==>
          && old(table)[n] == table[n] && slots[table[n]] == old(slots)[table[n]]
          && (slots[table[n]].sup.Some? ==>
              supervisors[slots[table[n]].sup.value] == old(supervisors)[slots[table[n]].sup.value])
          && (slots[table[n]].retry.Some? ==>
              retries[slots[table[n]].retry.value] == old(retries)[slots[table[n]].retry.value])
        invariant forall n :: n in removed[..i] && n in old(table) ==>
          var sl := old(slots)[old(table)[n]];
          && (sl.sup.Some? ==> sl.sup.value in supervisors && supervisors[sl.sup.value].stop
                               && SupervisorTask(sl.sup.value) in retiring)
          && (sl.retry.Some? ==> sl.retry.value in retries && retries[sl.retry.value].cancelled
                                 && RetryTask(sl.retry.value) in retiring)
          && n !in failed && n !in configFaults && n !in reloadFailed
        invariant failed <= old(failed) && configFaults <= old(configFaults) && reloadFailed <= old(reloadFailed)
      {
        assert removed[..i + 1] == removed[..i] + [removed[i]];
        Remove(removed[i]);
        i := i + 1;
      }
      assert removed[..i] == removed;
    }

    /** `for name in self.failed: if name not in self.config_faults: ...` at the end of start(). */
    method StartRetries(order: seq<Name>)
      requires Wired() && forall n :: n in order ==> n in table
      requires forall i, j :: 0 <= i < j < |order| ==> order[i] != order[j]
      requires forall t :: t in retries ==> t < next
      modifies this`slots, this`retries, this`next
      ensures Named()
      ensures forall n :: n in table ==>
        var sl := old(slots)[table[n]];
        if n in order && n !in configFaults then
          && slots[table[n]].retry.Some?
          && slots[table[n]] == sl.(retry := slots[table[n]].retry)
          && slots[table[n]].retry.value !in old(retries) && slots[table[n]].retry.value in retries
          && retries[slots[table[n]].retry.value] == Retry(table[n], Sleeping, false, EntryOf(prints, n))
        else slots[table[n]] == sl
      ensures forall t :: t in old(retries) ==> t in retries && retries[t] == old(retries)[t]
    {
      var i := 0;
      while i < |order|
        invariant 0 <= i <= |order|
        invariant Named()
        invariant forall n :: n in table ==>
          var sl := old(slots)[table[n]];
          if n in order[..i] && n !in configFaults then
            && slots[table[n]].retry.Some?
            && slots[table[n]] == sl.(retry := slots[table[n]].retry)
            && slots[table[n]].retry.value !in old(retries) && slots[table[n]].retry.value in retries
            && retries[slots[table[n]].retry.value] == Retry(table[n], Sleeping, false, EntryOf(prints, n))
          else slots[table[n]] == sl
        invariant forall t :: t in old(retries) ==> t in retries && retries[t] == old(retries)[t]
        invariant forall t :: t in retries ==> t < next
        invariant old(next) <= next
      {
        assert order[i] in order && order[i] !in order[..i];
        assert order[..i + 1] == order[..i] + [order[i]];
        if order[i] !in configFaults {
          SpawnRetry(table[order[i]], EntryOf(prints, order[i]));
        }
        i := i + 1;
      }
      assert order[..i] == order;
    }

    ghost predicate HandleOf(t: Id)
      reads this
      requires Named()
    {
      exists n :: n in table && slots[table[n]].retry == Some(t)
    }

    ghost predicate SupervisorOf(i: Id)
      reads this
      requires Named()
    {
      exists n :: n in table && slots[table[n]].sup == Some(i)
    }

    /** shutdown: [s.retry for s in self.table.slots.values() if s.retry is not None] */
    method ListRetries(order: seq<Name>) returns (wait: seq<TaskRef>)
      requires Wired() && forall n :: n in order <==> n in table
      ensures forall r :: r in wait ==> r.RetryTask? && HandleOf(r.task)
      ensures forall t :: HandleOf(t) ==> RetryTask(t) in wait
    {
      wait := [];
      var i := 0;
      while i < |order|
        invariant 0 <= i <= |order|
        invariant forall r :: r in wait ==> r.RetryTask? && HandleOf(r.task)
        invariant forall n :: n in order[..i] && n in table && slots[table[n]].retry.Some? ==>
          RetryTask(slots[table[n]].retry.value) in wait
      {
        assert order[i] in order;
        assert order[..i + 1] == order[..i] + [order[i]];
        var handle := slots[table[order[i]]].retry;
        if handle.Some? {
          assert HandleOf(handle.value);
          wait := wait + [RetryTask(handle.value)];
        }
        i := i + 1;
      }
      assert order[..i] == order;
    }

    /** shutdown: the tasks of the table's supervisors, then those retiring (`leaving`). */
    method ListSupervisors(order: seq<Name>, leaving: seq<TaskRef>) returns (tasks: seq<TaskRef>)
      requires Wired() && forall n :: n in order <==> n in table
      requires forall r :: r in leaving <==> r in retiring
      ensures forall r :: r in tasks ==> r in retiring || (r.SupervisorTask? && SupervisorOf(r.sup))
      ensures forall i :: SupervisorOf(i) ==> SupervisorTask(i) in tasks
      ensures forall r :: r in retiring ==> r in tasks
    {
      tasks := [];
      var i := 0;
      while i < |order|
        invariant 0 <= i <= |order|
        invariant forall r :: r in tasks ==> r.SupervisorTask? && SupervisorOf(r.sup)
        invariant forall n :: n in order[..i] && n in table && slots[table[n]].sup.Some? ==>
          SupervisorTask(slots[table[n]].sup.value) in tasks
      {
        assert order[i] in order;
        assert order[..i + 1] == order[..i] + [order[i]];
        var sup := slots[table[order[i]]].sup;
        if sup.Some? {
          assert SupervisorOf(sup.value);
          tasks := tasks + [SupervisorTask(sup.value)];
        }
        i := i + 1;
      }
      assert order[..i] == order;
      tasks := tasks + leaving;
    }

    /** shutdown: `for t in tasks: t.cancel()` */
    method CancelAll(tasks: seq<TaskRef>)
      modifies this`supervisors, this`retries
      ensures supervisors == map i | i in old(supervisors) ::
        if SupervisorTask(i) in tasks then old(supervisors)[i].(cancelled := true) else old(supervisors)[i]
      ensures retries == map t | t in old(retries) ::
        if RetryTask(t) in tasks then old(retries)[t].(cancelled := true) else old(retries)[t]
    {
      var n := 0;
      while n < |tasks|
        invariant 0 <= n <= |tasks|
        invariant supervisors == map i | i in old(supervisors) ::
          if SupervisorTask(i) in tasks[..n] then old(supervisors)[i].(cancelled := true) else old(supervisors)[i]
        invariant retries == map t | t in old(retries) ::
          if RetryTask(t) in tasks[..n] then old(retries)[t].(cancelled := true) else old(retries)[t]
      {
        assert tasks[..n + 1] == tasks[..n] + [tasks[n]];
        match tasks[n] {
          case SupervisorTask(i) => supervisors := CancelSup(supervisors, i);
          case RetryTask(t) => retries := CancelTask(retries, Some(t));
        }
        n := n + 1;
      }
      assert tasks[..n] == tasks;
    }
  }
}
