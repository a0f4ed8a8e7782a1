/**
 When shutdown closes everything.  It lists what it waits for twice: the retries, then the
 supervisors with whatever is retiring.  From the second list on, every way in which shutdown can
 still go closes every backend exactly if nothing can escape that list.
*/
module RuntimeShutdown {
  import opened Wrappers
  import opened RuntimeState
  import opened RuntimeInvariant
  import opened RuntimeEvents
  import opened RuntimeSteps
  import opened RuntimeTheorems

  // ------------------------------------------------------------------ what can escape

  /** A retry nobody has cancelled and that is not about to give up. */
  predicate CanAttach(r: Retry) { !r.cancelled && r.phase != Refusing(true) }

  /** A live app in a slot, whose task shutdown has not listed. */
  predicate Stray(s: State, i: Id) {
    && s.control.StopSupervisors? && Live(s, i)
    && SupervisorTask(i) !in s.control.tasks && !s.supervisors[i].place.AtRetry?
  }

  /** An app that may still die, and whose death starts a retry: it is registered, and its slot has
      no retry. */
  predicate CanSpawn(s: State, i: Id) {
    && SupDiesOk(s, i)
    && var sl := s.slots[s.supervisors[i].place.slot];
       sl.name in s.registry && sl.retry.None?
  }

  /** `deaths` says whether an app may still die. */
  predicate Escapes(s: State, deaths: bool) {
    || (exists t :: t in s.retries && CanAttach(s.retries[t]))
    || (exists i :: i in s.supervisors && Stray(s, i))
    || (deaths && exists i :: i in s.supervisors && CanSpawn(s, i))
  }

  predicate Dies(e: Event) { e.OfSup? && e.sup.DoSupDies? }

  predicate Deathless(fs: seq<Event>) { forall k :: 0 <= k < |fs| ==> !Dies(fs[k]) }

  predicate AllClosed(s: State) { forall b :: b in s.closes ==> s.closes[b] == 1 }

  // ------------------------------------------------------------------ nothing escapes

  ghost predicate Calm(s: State, deaths: bool) {
    match s.control
    case StopSupervisors(_) =>
      && (forall t :: t in s.retries ==> !CanAttach(s.retries[t]))
      && (forall i :: i in s.supervisors ==> !Stray(s, i) && !(deaths && CanSpawn(s, i)))
    case Down =>
      && (forall t :: t in s.retries ==> !s.retries[t].cancelled && s.retries[t].phase == Refusing(true))
      && (forall i :: i in s.supervisors ==> s.supervisors[i].phase.Closed?)
    case _ => false
  }

  lemma CalmSupDies(s: State, deaths: bool, i: Id)
    requires Inv(s) && Calm(s, deaths) && SupDiesOk(s, i) && deaths
    ensures Calm(SupDies(s, i), deaths)
  {
  }

  lemma CalmSupClose(s: State, deaths: bool, i: Id)
    requires Inv(s) && Calm(s, deaths) && Live(s, i)
    ensures Calm(SupClose(s, i), deaths)
  {
  }

  lemma CalmRequest(s: State, deaths: bool, e: SupEvent)
    requires Inv(s) && Calm(s, deaths) && SupOk(s, e) && (e.DoRequest? || e.DoRequestDone?)
    ensures Calm(SupStep(s, e), deaths)
  {
  }

  lemma CalmReady(s: State, deaths: bool, e: SupEvent)
    requires Inv(s) && Calm(s, deaths) && SupOk(s, e) && (e.DoSupReady? || e.DoSupDrained? || e.DoForget?)
    ensures Calm(SupStep(s, e), deaths)
  {
  }

  lemma CalmSup(s: State, deaths: bool, e: SupEvent)
    requires Inv(s) && Calm(s, deaths) && SupOk(s, e) && (deaths || !e.DoSupDies?)
    ensures Calm(SupStep(s, e), deaths)
  {
    match e
    case DoSupDies(i) => CalmSupDies(s, deaths, i);
    case DoSupFails(i) => CalmSupClose(s, deaths, i);
    case DoSupEnd(i, _) => CalmSupClose(s, deaths, i);
    case DoRequest(_) => CalmRequest(s, deaths, e);
    case DoRequestDone(_) => CalmRequest(s, deaths, e);
    case _ => CalmReady(s, deaths, e);
  }

  lemma CalmRetry(s: State, deaths: bool, e: RetryEvent)
    requires Inv(s) && Calm(s, deaths) && RetryOk(s, e)
    ensures Calm(RetryStep(s, e), deaths)
  {
  }

  lemma CalmFinish(s: State, deaths: bool)
    requires Inv(s) && Calm(s, deaths) && FinishOk(s)
    ensures Calm(Finish(s), deaths)
  {
  }

  lemma CalmStop(s: State, deaths: bool, e: StopEvent)
    requires Inv(s) && Calm(s, deaths) && StopOk(s, e)
    ensures Calm(StopStep(s, e), deaths)
  {
    match e
    case DoFinish => CalmFinish(s, deaths);
    case _ =>
  }

  lemma BootIsOver(s: State, e: BootEvent)
    requires BootOk(s, e)
    ensures !Stopping(s.control)
  {
  }

  lemma AttachIsOver(s: State, e: AttachEvent)
    requires AttachOk(s, e)
    ensures !Stopping(s.control)
  {
  }

  lemma ReloadIsOver(s: State, e: ReloadEvent)
    requires ReloadOk(s, e)
    ensures !Stopping(s.control)
  {
  }

  lemma CalmStep(s: State, deaths: bool, e: Event)
    requires Inv(s) && Calm(s, deaths) && Enabled(s, e) && (deaths || !Dies(e))
    ensures Calm(Step(s, e), deaths)
  {
    match e
    case OfSup(x) => CalmSup(s, deaths, x);
    case OfRetry(x) => CalmRetry(s, deaths, x);
    case OfStop(x) => CalmStop(s, deaths, x);
    case OfBoot(x) => BootIsOver(s, x);
    case OfAttach(x) => AttachIsOver(s, x);
    case OfReload(x) => ReloadIsOver(s, x);
  }

  lemma {:induction false} CalmRun(s: State, deaths: bool, fs: seq<Event>)
    requires Inv(s) && Calm(s, deaths) && Legal(s, fs) && (deaths || Deathless(fs))
    ensures Inv(After(s, fs)) && Calm(After(s, fs), deaths)
    decreases |fs|
  {
    if fs != [] {
      var n := |fs| - 1;
      CalmRun(s, deaths, fs[..n]);
      StepKeeps(After(s, fs[..n]), fs[n]);
      CalmStep(After(s, fs[..n]), deaths, fs[n]);
    }
  }

  lemma CalmDownIsClosed(s: State, deaths: bool)
    requires Inv(s) && Calm(s, deaths) && s.control.Down?
    ensures AllClosed(s)
  {
    forall b | b in s.closes && s.closes[b] == 0 ensures false {
      var h :| h in s.owned && s.owned[h] == b;
      LeftAtTheEnd(s, h);
    }
  }

  // ------------------------------------------------------------------ something does

  ghost predicate Leads(prints: map<Name, string>, es: seq<Event>, s: State, fs: seq<Event>, deaths: bool) {
    Reached(prints, es, s) && Legal(s, fs) && (deaths || Deathless(fs))
  }

  /** Steps lead from s, itself reached from boot, to r; no app dies on the way unless `deaths`. */
  ghost predicate Path(s: State, r: State, deaths: bool) {
    exists prints, es, fs :: Leads(prints, es, s, fs, deaths) && After(s, fs) == r
  }

  lemma PathBy(prints: map<Name, string>, es: seq<Event>, s: State, fs: seq<Event>, deaths: bool)
    requires Leads(prints, es, s, fs, deaths)
    ensures Path(s, After(s, fs), deaths)
  {
  }

  lemma DeathlessMore(fs: seq<Event>, e: Event)
    requires Deathless(fs) && !Dies(e)
    ensures Deathless(fs + [e])
  {
  }

  lemma PathStep(s: State, deaths: bool, r: State, e: Event)
    requires Path(s, r, deaths) && Enabled(r, e) && (deaths || !Dies(e))
    ensures Path(s, Step(r, e), deaths)
  {
    var prints, es, fs :| Leads(prints, es, s, fs, deaths) && After(s, fs) == r;
    Extend(s, fs, e);
    if !deaths {
      DeathlessMore(fs, e);
    }
    PathBy(prints, es, s, fs + [e], deaths);
  }

  lemma PathInv(s: State, deaths: bool, r: State)
    requires Path(s, r, deaths)
    ensures Inv(r)
  {
    var prints, es, fs :| Leads(prints, es, s, fs, deaths) && After(s, fs) == r;
    ReachedInv(prints, es, s);
    RunKeeps(s, fs);
  }

  /** A holder of a backend that no listed task is, or is waiting for. */
  predicate Free(s: State, h: Holder) {
    && s.control.StopSupervisors? && h in s.owned
    && match h
       case ByRetry(t) => t in s.retries && !s.retries[t].cancelled
       case BySupervisor(i) => i in s.supervisors && Unlisted(s.control.tasks, s.retries, s.supervisors[i], i)
       case _ => false
  }

  predicate Unlisted(tasks: set<TaskRef>, retries: map<Id, Retry>, p: Supervisor, i: Id) {
    && SupervisorTask(i) !in tasks
    && (p.place.AtRetry? ==> p.place.task in retries && !retries[p.place.task].cancelled)
  }

  /** An uncancelled retry stands at its slot, and holds what its phase says. */
  lemma AtItsSlot(o: State, deaths: bool, s: State, t: Id)
    requires Path(o, s, deaths) && s.control.StopSupervisors?
    requires t in s.retries && !s.retries[t].cancelled
    ensures RetryAt(s, t) && !s.retries[t].phase.Unwinding?
    ensures s.retries[t].phase.Finishing? ==> ByRetry(t) in s.owned
  {
    PathInv(o, deaths, s);
    assert Listed(s.table, s.slots, s.retries[t].slot);
  }

  /** What it is starting is not listed either. */
  lemma StartsUnlisted(o: State, deaths: bool, s: State, t: Id)
    requires Path(o, s, deaths) && s.control.StopSupervisors?
    requires t in s.retries && !s.retries[t].cancelled && s.retries[t].phase.Starting?
    ensures var i := s.retries[t].phase.sup;
      && i in s.supervisors && Unlisted(s.control.tasks, s.retries, s.supervisors[i], i)
      && (Live(s, i) ==> BySupervisor(i) in s.owned)
  {
    PathInv(o, deaths, s);
  }

  lemma Attaches(o: State, deaths: bool, s: State, t: Id) returns (r: State, h: Holder)
    requires Path(o, s, deaths) && s.control.StopSupervisors? && RetryAt(s, t) && s.retries[t].phase.Building?
    ensures Path(o, r, deaths) && Free(r, h)
  {
    PathStep(o, deaths, s, OfRetry(DoRetryBuilt(t)));
    r, h := RetryBuilt(s, t), ByRetry(t);
  }

  lemma WakesAndAttaches(o: State, deaths: bool, s: State, t: Id) returns (r: State, h: Holder)
    requires Path(o, s, deaths) && s.control.StopSupervisors? && RetryAt(s, t) && s.retries[t].phase.Sleeping?
    ensures Path(o, r, deaths) && Free(r, h)
  {
    PathStep(o, deaths, s, OfRetry(DoRetryWake(t)));
    r, h := Attaches(o, deaths, RetryWake(s, t), t);
  }

  lemma StartingEscapes(o: State, deaths: bool, s: State, t: Id) returns (r: State, h: Holder)
    requires Path(o, s, deaths) && s.control.StopSupervisors? && RetryAt(s, t) && s.retries[t].phase.Starting?
    ensures Path(o, r, deaths) && Free(r, h)
  {
    StartsUnlisted(o, deaths, s, t);
    var i := s.retries[t].phase.sup;
    if Live(s, i) {
      r, h := s, BySupervisor(i);
    } else {
      PathStep(o, deaths, s, OfRetry(DoRetryInstallFailed(t)));
      r, h := WakesAndAttaches(o, deaths, RetryInstallFailed(s, t), t);
    }
  }

  lemma RefusingEscapes(o: State, deaths: bool, s: State, t: Id) returns (r: State, h: Holder)
    requires Path(o, s, deaths) && s.control.StopSupervisors? && RetryAt(s, t) && s.retries[t].phase == Refusing(false)
    ensures Path(o, r, deaths) && Free(r, h)
  {
    PathStep(o, deaths, s, OfRetry(DoRetryFail(t)));
    r, h := WakesAndAttaches(o, deaths, RetryFail(s, t), t);
  }

  lemma RetryEscapes(o: State, deaths: bool, s: State, t: Id) returns (r: State, h: Holder)
    requires Path(o, s, deaths) && s.control.StopSupervisors? && t in s.retries && CanAttach(s.retries[t])
    ensures Path(o, r, deaths) && Free(r, h)
  {
    AtItsSlot(o, deaths, s, t);
    match s.retries[t].phase
    case Sleeping => r, h := WakesAndAttaches(o, deaths, s, t);
    case Building => r, h := Attaches(o, deaths, s, t);
    case Finishing => r, h := s, ByRetry(t);
    case Starting(_) => r, h := StartingEscapes(o, deaths, s, t);
    case Refusing(_) => r, h := RefusingEscapes(o, deaths, s, t);
  }

  lemma StrayHolds(o: State, deaths: bool, s: State, i: Id)
    requires Path(o, s, deaths) && i in s.supervisors && Stray(s, i)
    ensures Free(s, BySupervisor(i))
  {
    PathInv(o, deaths, s);
  }

  /** The death of an app starts a retry that nothing has cancelled. */
  lemma DeathSpawns(s: State, i: Id)
    requires s.control.StopSupervisors? && i in s.supervisors && CanSpawn(s, i)
    ensures var r := SupDies(s, i);
      r.control == s.control && s.next in r.retries && CanAttach(r.retries[s.next])
  {
  }

  lemma SomethingEscapes(o: State, deaths: bool, s: State) returns (r: State, h: Holder)
    requires Path(o, s, deaths) && s.control.StopSupervisors? && Escapes(s, deaths)
    ensures Path(o, r, deaths) && Free(r, h)
  {
    if t :| t in s.retries && CanAttach(s.retries[t]) {
      r, h := RetryEscapes(o, deaths, s, t);
    } else if i :| i in s.supervisors && Stray(s, i) {
      StrayHolds(o, deaths, s, i);
      r, h := s, BySupervisor(i);
    } else {
      var i :| i in s.supervisors && CanSpawn(s, i);
      DeathSpawns(s, i);
      PathStep(o, deaths, s, OfSup(DoSupDies(i)));
      r, h := RetryEscapes(o, deaths, SupDies(s, i), s.next);
    }
  }

  // ------------------------------------------------------------------ and shutdown ends all the same

  function LiveListed(tasks: set<TaskRef>, supervisors: map<Id, Supervisor>): set<Id> {
    set i | i in supervisors && !supervisors[i].phase.Closed? && SupervisorTask(i) in tasks
  }

  function Pursued(retries: map<Id, Retry>): set<Id> { set t | t in retries && retries[t].cancelled }

  function InBootedNames(owned: map<Holder, Id>): set<Holder> { set h | h in owned && h.InBooted? }

  /** A cancelled supervisor ends. */
  lemma SupEnds(o: State, deaths: bool, s: State, h: Holder, i: Id)
    requires Path(o, s, deaths) && Free(s, h) && h != BySupervisor(i) && Live(s, i) && s.supervisors[i].cancelled
    ensures Path(o, SupClose(s, i), deaths) && Free(SupClose(s, i), h)
  {
    PathStep(o, deaths, s, OfSup(DoSupEnd(i, Cancelled)));
  }

  lemma ListedIsCancelled(o: State, deaths: bool, s: State, i: Id)
    requires Path(o, s, deaths) && s.control.StopSupervisors? && SupervisorTask(i) in s.control.tasks
    ensures i in s.supervisors && s.supervisors[i].cancelled
  {
    PathInv(o, deaths, s);
  }

  lemma {:induction false} SupervisorsEnd(o: State, deaths: bool, s: State, h: Holder) returns (r: State)
    requires Path(o, s, deaths) && Free(s, h)
    ensures Path(o, r, deaths) && Free(r, h) && LiveListed(r.control.tasks, r.supervisors) == {}
    decreases |LiveListed(s.control.tasks, s.supervisors)|
  {
    var live := LiveListed(s.control.tasks, s.supervisors);
    if live == {} {
      r := s;
    } else {
      var i := Member(live);
      ListedIsCancelled(o, deaths, s, i);
      SupEnds(o, deaths, s, h, i);
      var n := SupClose(s, i);
      assert LiveListed(n.control.tasks, n.supervisors) == live - {i};
      r := SupervisorsEnd(o, deaths, n, h);
    }
  }

  /** A cancelled retry with nothing left to await ends. */
  lemma RetryEndsNow(o: State, deaths: bool, s: State, h: Holder, t: Id)
    requires Path(o, s, deaths) && Free(s, h) && RetryEndsOk(s, t)
    ensures Path(o, RetryEnds(s, t), deaths) && Free(RetryEnds(s, t), h)
  {
    PathStep(o, deaths, s, OfRetry(DoRetryEnds(t)));
  }

  lemma Unwound(o: State, deaths: bool, s: State, t: Id)
    requires Path(o, s, deaths) && t in s.retries
    requires s.retries[t].phase.Starting? || s.retries[t].phase.Unwinding?
    ensures var i := s.retries[t].phase.sup;
      && i in s.supervisors && s.supervisors[i].place == AtRetry(t)
      && (s.supervisors[i].cancelled <==> s.retries[t].phase.Unwinding?)
  {
    PathInv(o, deaths, s);
  }

  /** ... one that cancelled what it was starting awaits that first. */
  lemma Awaited(o: State, deaths: bool, s: State, h: Holder, t: Id) returns (r: State)
    requires Path(o, s, deaths) && Free(s, h) && RetryCancelledOk(s, t) && s.retries[t].phase.Unwinding?
    ensures Path(o, r, deaths) && Free(r, h) && RetryEndsOk(r, t) && r.retries == s.retries
    ensures r.control == s.control
    ensures LiveListed(r.control.tasks, r.supervisors) <= LiveListed(s.control.tasks, s.supervisors)
  {
    Unwound(o, deaths, s, t);
    var i := s.retries[t].phase.sup;
    r := s;
    if Live(s, i) {
      SupEnds(o, deaths, s, h, i);
      r := SupClose(s, i);
    }
  }

  lemma UnwindingEnds(o: State, deaths: bool, s: State, h: Holder, t: Id) returns (r: State)
    requires Path(o, s, deaths) && Free(s, h) && RetryCancelledOk(s, t) && s.retries[t].phase.Unwinding?
    requires LiveListed(s.control.tasks, s.supervisors) == {}
    ensures Path(o, r, deaths) && Free(r, h) && r.retries == s.retries - {t}
    ensures LiveListed(r.control.tasks, r.supervisors) == {}
  {
    var w := Awaited(o, deaths, s, h, t);
    RetryEndsNow(o, deaths, w, h, t);
    r := RetryEnds(w, t);
  }

  lemma StartingEnds(o: State, deaths: bool, s: State, h: Holder, t: Id) returns (r: State)
    requires Path(o, s, deaths) && Free(s, h) && RetryUnwindOk(s, t)
    requires LiveListed(s.control.tasks, s.supervisors) == {}
    ensures Path(o, r, deaths) && Free(r, h) && r.retries == s.retries - {t}
    ensures LiveListed(r.control.tasks, r.supervisors) == {}
  {
    Unwound(o, deaths, s, t);
    PathStep(o, deaths, s, OfRetry(DoRetryUnwind(t)));
    var u := RetryUnwind(s, t);
    assert LiveListed(u.control.tasks, u.supervisors) == LiveListed(s.control.tasks, s.supervisors);
    r := UnwindingEnds(o, deaths, u, h, t);
    assert u.retries - {t} == s.retries - {t};
  }

  lemma PursuedEnds(o: State, deaths: bool, s: State, h: Holder, t: Id) returns (r: State)
    requires Path(o, s, deaths) && Free(s, h) && RetryCancelledOk(s, t)
    requires LiveListed(s.control.tasks, s.supervisors) == {}
    ensures Path(o, r, deaths) && Free(r, h) && r.retries == s.retries - {t}
    ensures LiveListed(r.control.tasks, r.supervisors) == {}
  {
    if s.retries[t].phase.Starting? {
      r := StartingEnds(o, deaths, s, h, t);
    } else if s.retries[t].phase.Unwinding? {
      r := UnwindingEnds(o, deaths, s, h, t);
    } else {
      RetryEndsNow(o, deaths, s, h, t);
      r := RetryEnds(s, t);
    }
  }

  lemma {:induction false} RetriesEnd(o: State, deaths: bool, s: State, h: Holder) returns (r: State)
    requires Path(o, s, deaths) && Free(s, h) && LiveListed(s.control.tasks, s.supervisors) == {}
    ensures Path(o, r, deaths) && Free(r, h)
    ensures LiveListed(r.control.tasks, r.supervisors) == {} && Pursued(r.retries) == {}
    decreases |Pursued(s.retries)|
  {
    if Pursued(s.retries) == {} {
      r := s;
    } else {
      var t := Member(Pursued(s.retries));
      var n := PursuedEnds(o, deaths, s, h, t);
      assert Pursued(n.retries) == Pursued(s.retries) - {t};
      r := RetriesEnd(o, deaths, n, h);
    }
  }

  lemma NowAllStopped(o: State, deaths: bool, s: State)
    requires Path(o, s, deaths) && s.control.StopSupervisors?
    requires LiveListed(s.control.tasks, s.supervisors) == {} && Pursued(s.retries) == {}
    ensures AllStopped(s)
  {
    PathInv(o, deaths, s);
    forall t | t in s.retries ensures RetryTask(t) !in s.control.tasks {
      assert t !in Pursued(s.retries);
    }
    forall i | i in s.supervisors ensures SupervisorTask(i) !in s.control.tasks || s.supervisors[i].phase.Closed? {
      assert i !in LiveListed(s.control.tasks, s.supervisors);
    }
  }

  lemma {:induction false} BootedClose(o: State, deaths: bool, s: State, h: Holder) returns (r: State)
    requires Path(o, s, deaths) && Free(s, h) && AllStopped(s)
    ensures Path(o, r, deaths) && Free(r, h) && FinishOk(r)
    decreases |InBootedNames(s.owned)|
  {
    var left := InBootedNames(s.owned);
    if left == {} {
      r := s;
      assert forall g :: g in s.owned && g.InBooted? ==> g in left;
    } else {
      var b := Member(left);
      var n := b.surface;
      PathStep(o, deaths, s, OfStop(DoCloseBooted(n)));
      var c := CloseBooted(s, n);
      assert InBootedNames(c.owned) == left - {InBooted(n)};
      r := BootedClose(o, deaths, c, h);
    }
  }

  /** Everything shutdown waits for can end, with the holder left as it is. */
  lemma AllMayStop(o: State, deaths: bool, s: State, h: Holder) returns (r: State)
    requires Path(o, s, deaths) && Free(s, h)
    ensures Path(o, r, deaths) && Free(r, h) && AllStopped(r)
  {
    var p := SupervisorsEnd(o, deaths, s, h);
    r := RetriesEnd(o, deaths, p, h);
    NowAllStopped(o, deaths, r);
  }

  lemma MayFinish(o: State, deaths: bool, s: State, h: Holder) returns (r: State)
    requires Path(o, s, deaths) && Free(s, h) && AllStopped(s)
    ensures Path(o, r, deaths) && r.control.Down? && h in r.owned
  {
    var c := BootedClose(o, deaths, s, h);
    PathStep(o, deaths, c, OfStop(DoFinish));
    r := Finish(c);
  }

  lemma HolderLeaks(o: State, deaths: bool, s: State, h: Holder)
    requires Path(o, s, deaths) && h in s.owned
    ensures !AllClosed(s)
  {
    PathInv(o, deaths, s);
    HolderIsOpen(s, h);
  }

  /** A way in which shutdown goes on from s to its end. */
  predicate Finishes(s: State, fs: seq<Event>, deaths: bool) {
    Legal(s, fs) && After(s, fs).control.Down? && (deaths || Deathless(fs))
  }

  lemma PathFinishes(o: State, deaths: bool, r: State)
    requires Path(o, r, deaths) && r.control.Down? && !AllClosed(r)
    ensures exists fs :: Finishes(o, fs, deaths) && !AllClosed(After(o, fs))
  {
    var prints, es, fs :| Leads(prints, es, o, fs, deaths) && After(o, fs) == r;
    assert Finishes(o, fs, deaths) && !AllClosed(After(o, fs));
  }

  lemma LeaksAtTheEnd(o: State, deaths: bool, s: State)
    requires Path(o, s, deaths) && s.control.StopSupervisors? && Escapes(s, deaths)
    ensures exists fs :: Finishes(o, fs, deaths) && !AllClosed(After(o, fs))
  {
    var f, h := SomethingEscapes(o, deaths, s);
    var p := AllMayStop(o, deaths, f, h);
    var r := MayFinish(o, deaths, p, h);
    HolderLeaks(o, deaths, r, h);
    PathFinishes(o, deaths, r);
  }

  // ------------------------------------------------------------------ exactly when

  lemma CalmCloses(s: State, deaths: bool, fs: seq<Event>)
    requires Inv(s) && Calm(s, deaths) && Finishes(s, fs, deaths)
    ensures AllClosed(After(s, fs))
  {
    CalmRun(s, deaths, fs);
    CalmDownIsClosed(After(s, fs), deaths);
  }

  lemma CalmIsNoEscape(s: State, deaths: bool)
    requires s.control.StopSupervisors?
    ensures Calm(s, deaths) <==> !Escapes(s, deaths)
  {
  }

  /** From the moment shutdown has cancelled its second list, every way it can go closes every
      backend exactly if nothing escapes: no retry that may still attach is uncancelled, no
      supervisor runs unlisted, and (unless apps are known to leave their lifespans quietly) no
      app is left whose death would start a retry. */
  lemma ShutdownClosesExactly(prints: map<Name, string>, es: seq<Event>, s: State, deaths: bool)
    requires Reached(prints, es, s) && s.control.StopSupervisors?
    ensures (forall fs :: Finishes(s, fs, deaths) ==> AllClosed(After(s, fs))) <==> !Escapes(s, deaths)
  {
    if Escapes(s, deaths) {
      assert Legal(s, []) && After(s, []) == s;
      PathBy(prints, es, s, [], deaths);
      LeaksAtTheEnd(s, deaths, s);
    } else {
      ReachedInv(prints, es, s);
      CalmIsNoEscape(s, deaths);
      forall fs | Finishes(s, fs, deaths) ensures AllClosed(After(s, fs)) {
        CalmCloses(s, deaths, fs);
      }
    }
  }

  lemma NoneAtControl(s: State, i: Id)
    requires Inv(s) && s.control.StopRetries? && Live(s, i)
    ensures SupervisorTask(i) in StopTasks(s) || s.supervisors[i].place.AtRetry?
  {
    if s.supervisors[i].place.AtSlot? {
      assert TableSup(s.table, s.slots, s.supervisors[i], i);
    }
  }

  /** When it takes that list no supervisor escapes it. */
  lemma NoStrays(s: State)
    requires Inv(s) && StopAllOk(s)
    ensures forall i :: i in StopAll(s).supervisors ==> !Stray(StopAll(s), i)
  {
    forall i | i in s.supervisors && Stray(StopAll(s), i) ensures false {
      NoneAtControl(s, i);
    }
  }

  /** So if no app dies from then on, shutdown is sure to close everything exactly if it finds no
      uncancelled retry that may still attach. */
  lemma ShutdownClosesUnlessRetrying(prints: map<Name, string>, es: seq<Event>, p: State)
    requires Reached(prints, es, p) && StopAllOk(p)
    ensures var s := StopAll(p);
      (forall fs :: Finishes(s, fs, false) ==> AllClosed(After(s, fs))) <==>
      (forall t :: t in s.retries ==> !CanAttach(s.retries[t]))
  {
    ReachedInv(prints, es, p);
    NoStrays(p);
    Extend(Init(prints), es, OfStop(DoStopAll));
    ShutdownClosesExactly(prints, es + [OfStop(DoStopAll)], StopAll(p), false);
  }
}
