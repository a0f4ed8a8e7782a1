/** What the tables of the runtime say about the run that led to them. */
module RuntimeHistory {
  import opened Wrappers
  import opened RuntimeState
  import opened RuntimeInvariant
  import opened RuntimeEvents
  import opened RuntimeTheorems

  // ------------------------------------------------------------------ reloads that failed

  /** The reload fails to attach surface n, which goes on serving what it did. */
  predicate FailsServing(s: State, e: Event, n: Name) {
    && (e == OfReload(DoReloadAttachFailed(n))
        || (e.OfReload? && e.reload.DoReloadInstallFailed? && IsCurrent(Current(s.control), n)))
    && HasSlot(s, n) && SlotOf(s, n).app.Some?
  }

  /** Surface n gets a new app, or is removed. */
  predicate Renews(s: State, e: Event, n: Name) {
    || (e == OfReload(DoReloadInstalled) && IsCurrent(Current(s.control), n))
    || e == OfReload(DoReloadRemove(n))
    || (e.OfRetry? && e.retry.DoRetryInstalled? && RetryInstalledOk(s, e.retry.t)
        && s.slots[s.retries[e.retry.t].slot].name == n)
  }

  /** The last of these in the run was a failure. */
  predicate StillFailed(prints: map<Name, string>, es: seq<Event>, n: Name)
    requires Legal(Init(prints), es)
    decreases |es|
  {
    es != [] &&
    var less, e := es[..|es| - 1], es[|es| - 1];
    var s := After(Init(prints), less);
    FailsServing(s, e, n) || (StillFailed(prints, less, n) && !Renews(s, e, n))
  }

  /** The last reload of the run that came to an end was refused outright. */
  predicate LastRefused(es: seq<Event>)
    decreases |es|
  {
    es != [] &&
    var less, e := es[..|es| - 1], es[|es| - 1];
    e == OfReload(DoReloadRefused) || (LastRefused(less) && e != OfReload(DoReloadDone))
  }

  predicate SameMarks(s: State, r: State) { r.reloadFailed == s.reloadFailed && r.lastRefused == s.lastRefused }

  lemma BootMarks(s: State, e: BootEvent)
    requires BootOk(s, e)
    ensures SameMarks(s, BootStep(s, e))
  {
  }

  lemma AttachMarks(s: State, e: AttachEvent)
    requires AttachOk(s, e)
    ensures SameMarks(s, AttachStep(s, e)) && AttachStep(s, e).configFaults == s.configFaults
  {
  }

  lemma SupMarks(s: State, e: SupEvent)
    requires SupOk(s, e)
    ensures SameMarks(s, SupStep(s, e)) && SupStep(s, e).configFaults == s.configFaults
  {
  }

  lemma StopMarks(s: State, e: StopEvent)
    requires StopOk(s, e)
    ensures SameMarks(s, StopStep(s, e)) && StopStep(s, e).configFaults == s.configFaults
  {
  }

  lemma RetryMarks(s: State, e: RetryEvent, n: Name)
    requires RetryOk(s, e)
    ensures var r := RetryStep(s, e);
      && (n in r.reloadFailed <==> n in s.reloadFailed && !Renews(s, OfRetry(e), n))
      && r.lastRefused == s.lastRefused
  {
  }

  lemma ReloadMarks(s: State, e: ReloadEvent, n: Name)
    requires ReloadOk(s, e)
    ensures var r := ReloadStep(s, e);
      && (n in r.reloadFailed <==>
            FailsServing(s, OfReload(e), n) || (n in s.reloadFailed && !Renews(s, OfReload(e), n)))
      && (r.lastRefused <==> e.DoReloadRefused? || (s.lastRefused && !e.DoReloadDone?))
  {
  }

  lemma MarksStep(s: State, e: Event, n: Name)
    requires Enabled(s, e)
    ensures var r := Step(s, e);
      && (n in r.reloadFailed <==> FailsServing(s, e, n) || (n in s.reloadFailed && !Renews(s, e, n)))
      && (r.lastRefused <==>
            e == OfReload(DoReloadRefused) || (s.lastRefused && e != OfReload(DoReloadDone)))
  {
    match e
    case OfBoot(x) => BootMarks(s, x);
    case OfAttach(x) => AttachMarks(s, x);
    case OfSup(x) => SupMarks(s, x);
    case OfRetry(x) => RetryMarks(s, x, n);
    case OfReload(x) => ReloadMarks(s, x, n);
    case OfStop(x) => StopMarks(s, x);
  }

  lemma {:induction false} MarksRun(prints: map<Name, string>, es: seq<Event>, n: Name)
    requires Legal(Init(prints), es)
    ensures n in After(Init(prints), es).reloadFailed <==> StillFailed(prints, es, n)
    ensures After(Init(prints), es).lastRefused <==> LastRefused(es)
    decreases |es|
  {
    if es != [] {
      MarksRun(prints, es[..|es| - 1], n);
      MarksStep(After(Init(prints), es[..|es| - 1]), es[|es| - 1], n);
    }
  }

  /** /healthz on reloads: `reload_failed` are exactly the surfaces whose last attach by a reload
      failed while they served, and which have had no new app since; `last_reload` is there exactly
      if the last reload that ended was refused. */
  lemma HealthTellsReloads(prints: map<Name, string>, es: seq<Event>, s: State)
    requires Reached(prints, es, s)
    ensures forall n :: n in HealthBody(s).reloadFailed <==> StillFailed(prints, es, n)
    ensures HealthBody(s).lastReloadFailed <==> LastRefused(es)
  {
    forall n ensures n in s.reloadFailed <==> StillFailed(prints, es, n) {
      MarksRun(prints, es, n);
    }
    MarksRun(prints, es, "");
  }

  // ------------------------------------------------------------------ requests in flight

  /** The app the request is given to. */
  predicate DispatchedTo(s: State, e: Event, i: Id) {
    && e.OfSup? && e.sup.DoRequest? && HasSlot(s, e.sup.n) && SlotOf(s, e.sup.n).app == Some(i)
  }

  /** Requests given to app i in the run, less those that have ended. */
  function InFlight(prints: map<Name, string>, es: seq<Event>, i: Id): int
    requires Legal(Init(prints), es)
    decreases |es|
  {
    if es == [] then 0
    else
      var less, e := es[..|es| - 1], es[|es| - 1];
      InFlight(prints, less, i)
      + (if DispatchedTo(After(Init(prints), less), e, i) then 1 else 0)
      - (if e == OfSup(DoRequestDone(i)) then 1 else 0)
  }

  function Active(s: State, i: Id): int { if i in s.supervisors then s.supervisors[i].active else 0 }

  lemma BootActive(s: State, e: BootEvent, i: Id)
    requires Below(s.supervisors, s.next) && BootOk(s, e)
    ensures Active(BootStep(s, e), i) == Active(s, i)
  {
  }

  lemma AttachActive(s: State, e: AttachEvent, i: Id)
    requires AttachOk(s, e)
    ensures Active(AttachStep(s, e), i) == Active(s, i)
  {
  }

  lemma SupActive(s: State, e: SupEvent, i: Id)
    requires SupOk(s, e)
    ensures Active(SupStep(s, e), i) == Active(s, i)
         + (if DispatchedTo(s, OfSup(e), i) then 1 else 0) - (if e == DoRequestDone(i) then 1 else 0)
  {
  }

  lemma RetryActive(s: State, e: RetryEvent, i: Id)
    requires Below(s.supervisors, s.next) && RetryOk(s, e)
    ensures Active(RetryStep(s, e), i) == Active(s, i)
  {
  }

  lemma ReloadActive(s: State, e: ReloadEvent, i: Id)
    requires Below(s.supervisors, s.next) && ReloadOk(s, e)
    ensures Active(ReloadStep(s, e), i) == Active(s, i)
  {
  }

  lemma StopActive(s: State, e: StopEvent, i: Id)
    requires StopOk(s, e)
    ensures Active(StopStep(s, e), i) == Active(s, i)
  {
  }

  lemma ActiveStep(s: State, e: Event, i: Id)
    requires Below(s.supervisors, s.next) && Enabled(s, e)
    ensures Active(Step(s, e), i) == Active(s, i)
         + (if DispatchedTo(s, e, i) then 1 else 0) - (if e == OfSup(DoRequestDone(i)) then 1 else 0)
  {
    match e
    case OfBoot(x) => BootActive(s, x, i);
    case OfAttach(x) => AttachActive(s, x, i);
    case OfSup(x) => SupActive(s, x, i);
    case OfRetry(x) => RetryActive(s, x, i);
    case OfReload(x) => ReloadActive(s, x, i);
    case OfStop(x) => StopActive(s, x, i);
  }

  /** An app's count is the number of requests it was given and has not ended: over installs, swaps,
      removals and shutdown. */
  lemma {:induction false} ActiveIsInFlight(prints: map<Name, string>, es: seq<Event>, i: Id)
    requires Legal(Init(prints), es)
    ensures Active(After(Init(prints), es), i) == InFlight(prints, es, i) >= 0
    decreases |es|
  {
    if es != [] {
      var n := |es| - 1;
      ActiveIsInFlight(prints, es[..n], i);
      ReachedInv(prints, es[..n], After(Init(prints), es[..n]));
      ActiveStep(After(Init(prints), es[..n]), es[n], i);
    }
  }

  // ------------------------------------------------------------------ configuration faults

  /** Whether the last attach of surface n in a gather that failed did so for its configuration. */
  predicate GatherFault(es: seq<Event>, n: Name)
    decreases |es|
  {
    es != [] &&
    var e := es[|es| - 1];
    if e.OfAttach? && e.attach.DoChildFail? && e.attach.n == n then e.attach.fault else GatherFault(es[..|es| - 1], n)
  }

  ghost predicate FaultsKnown(s: State, es: seq<Event>) {
    forall n :: n in s.children && s.children[n].ChildFailed? ==> s.children[n].fault == GatherFault(es, n)
  }

  lemma AttachFaults(s: State, e: AttachEvent, n: Name)
    requires AttachOk(s, e) && n in AttachStep(s, e).children && AttachStep(s, e).children[n].ChildFailed?
    ensures if e.DoChildFail? && e.n == n then AttachStep(s, e).children[n].fault == e.fault
            else n in s.children && s.children[n] == AttachStep(s, e).children[n]
  {
  }

  lemma BootFaults(s: State, e: BootEvent, n: Name)
    requires BootOk(s, e) && n in BootStep(s, e).children && BootStep(s, e).children[n].ChildFailed?
    ensures n in s.children && s.children[n] == BootStep(s, e).children[n]
  {
  }

  lemma SupFaults(s: State, e: SupEvent, n: Name)
    requires SupOk(s, e) && n in SupStep(s, e).children && SupStep(s, e).children[n].ChildFailed?
    ensures n in s.children && s.children[n] == SupStep(s, e).children[n]
  {
  }

  lemma RetryFaults(s: State, e: RetryEvent, n: Name)
    requires RetryOk(s, e) && n in RetryStep(s, e).children && RetryStep(s, e).children[n].ChildFailed?
    ensures n in s.children && s.children[n] == RetryStep(s, e).children[n]
  {
  }

  lemma ReloadFaults(s: State, e: ReloadEvent, n: Name)
    requires ReloadOk(s, e) && n in ReloadStep(s, e).children && ReloadStep(s, e).children[n].ChildFailed?
    ensures n in s.children && s.children[n] == ReloadStep(s, e).children[n]
  {
  }

  lemma StopFaults(s: State, e: StopEvent, n: Name)
    requires StopOk(s, e) && n in StopStep(s, e).children && StopStep(s, e).children[n].ChildFailed?
    ensures n in s.children && s.children[n] == StopStep(s, e).children[n]
  {
  }

  lemma OthersFaults(s: State, e: Event, n: Name)
    requires Enabled(s, e) && !e.OfAttach? && n in Step(s, e).children && Step(s, e).children[n].ChildFailed?
    ensures n in s.children && s.children[n] == Step(s, e).children[n]
  {
    match e
    case OfBoot(x) => BootFaults(s, x, n);
    case OfSup(x) => SupFaults(s, x, n);
    case OfRetry(x) => RetryFaults(s, x, n);
    case OfReload(x) => ReloadFaults(s, x, n);
    case OfStop(x) => StopFaults(s, x, n);
  }

  lemma {:induction false} FaultsRun(prints: map<Name, string>, es: seq<Event>)
    requires Legal(Init(prints), es)
    ensures FaultsKnown(After(Init(prints), es), es)
    decreases |es|
  {
    if es != [] {
      var less, e := es[..|es| - 1], es[|es| - 1];
      FaultsRun(prints, less);
      var s := After(Init(prints), less);
      forall n | n in Step(s, e).children && Step(s, e).children[n].ChildFailed?
        ensures Step(s, e).children[n].fault == GatherFault(es, n)
      {
        if e.OfAttach? { AttachFaults(s, e.attach, n); } else { OthersFaults(s, e, n); }
      }
    }
  }

  /** Surface n has no app. */
  predicate Unserved(s: State, n: Name) { HasSlot(s, n) && SlotOf(s, n).app.None? }

  /** An attach of surface n fails for its configuration, while it does not serve. */
  predicate FaultHere(s: State, e: Event, gatherFault: bool, n: Name) {
    match e
    case OfBoot(DoBootOne(m)) => m == n && n in s.children && s.children[n].ChildFailed? && gatherFault
    case OfRetry(DoRetryFault(t)) =>
      t in s.retries && s.retries[t].slot in s.slots && s.slots[s.retries[t].slot].name == n
      && s.slots[s.retries[t].slot].app.None?
    case OfReload(DoReloadAttachFailed(m)) => m == n && Unserved(s, n) && gatherFault
    case OfReload(DoReloadInstallFailed(fault)) => IsCurrent(Current(s.control), n) && Unserved(s, n) && fault
    case _ => false
  }

  /** It fails otherwise, gets an app, or is removed. */
  predicate FaultOver(s: State, e: Event, gatherFault: bool, n: Name) {
    || Renews(s, e, n)
    || (e == OfReload(DoReloadAttachFailed(n)) && Unserved(s, n) && !gatherFault)
    || (e == OfReload(DoReloadInstallFailed(false)) && IsCurrent(Current(s.control), n) && Unserved(s, n))
  }

  /** The last of these in the run was a configuration fault. */
  predicate StillFaulty(prints: map<Name, string>, es: seq<Event>, n: Name)
    requires Legal(Init(prints), es)
    decreases |es|
  {
    es != [] &&
    var less, e := es[..|es| - 1], es[|es| - 1];
    var s := After(Init(prints), less);
    || FaultHere(s, e, GatherFault(less, n), n)
    || (StillFaulty(prints, less, n) && !FaultOver(s, e, GatherFault(less, n), n))
  }

  predicate Turned(s: State, r: State, e: Event, gatherFault: bool, n: Name) {
    n in r.configFaults <==>
      FaultHere(s, e, gatherFault, n) || (n in s.configFaults && !FaultOver(s, e, gatherFault, n))
  }

  lemma BootTurns(s: State, e: BootEvent, f: bool, n: Name)
    requires BootOk(s, e)
    requires n in s.children && s.children[n].ChildFailed? ==> s.children[n].fault == f
    ensures Turned(s, BootStep(s, e), OfBoot(e), f, n)
  {
  }

  lemma RetryTurns(s: State, e: RetryEvent, f: bool, n: Name)
    requires RetryOk(s, e)
    ensures Turned(s, RetryStep(s, e), OfRetry(e), f, n)
  {
  }

  lemma ReloadTurns(s: State, e: ReloadEvent, f: bool, n: Name)
    requires TableOk(s.table, s.slots) && ReloadOk(s, e)
    requires n in s.children && s.children[n].ChildFailed? ==> s.children[n].fault == f
    ensures Turned(s, ReloadStep(s, e), OfReload(e), f, n)
  {
  }

  lemma SameFaultMarks(s: State, e: Event, f: bool, n: Name)
    requires Enabled(s, e) && (e.OfAttach? || e.OfSup? || e.OfStop?)
    ensures Turned(s, Step(s, e), e, f, n)
  {
    match e
    case OfAttach(x) => AttachMarks(s, x);
    case OfSup(x) => SupMarks(s, x);
    case OfStop(x) => StopMarks(s, x);
    case _ =>
  }

  lemma TurnedStep(s: State, e: Event, f: bool, n: Name)
    requires TableOk(s.table, s.slots) && Enabled(s, e)
    requires n in s.children && s.children[n].ChildFailed? ==> s.children[n].fault == f
    ensures Turned(s, Step(s, e), e, f, n)
  {
    match e
    case OfBoot(x) => BootTurns(s, x, f, n);
    case OfRetry(x) => RetryTurns(s, x, f, n);
    case OfReload(x) => ReloadTurns(s, x, f, n);
    case _ => SameFaultMarks(s, e, f, n);
  }

  lemma {:induction false} FaultyRun(prints: map<Name, string>, es: seq<Event>, n: Name)
    requires Legal(Init(prints), es)
    ensures n in After(Init(prints), es).configFaults <==> StillFaulty(prints, es, n)
    decreases |es|
  {
    if es != [] {
      var less := es[..|es| - 1];
      FaultyRun(prints, less, n);
      FaultsRun(prints, less);
      ReachedInv(prints, less, After(Init(prints), less));
      TurnedStep(After(Init(prints), less), es[|es| - 1], GatherFault(less, n), n);
    }
  }

  /** A surface that does not serve is being retried, unless the last thing that happened to it was an
      attach that failed for its configuration: which a retry cannot mend. */
  lemma RetriedExactly(prints: map<Name, string>, es: seq<Event>, s: State, n: Name)
    requires Reached(prints, es, s) && s.control.Running? && n in s.table
    ensures HasSlot(s, n)
    ensures SlotOf(s, n).app.None? ==> (Retrying(s, s.table[n]) <==> !StillFaulty(prints, es, n))
  {
    EverySurfaceAccountedFor(prints, es, s);
    FaultyRun(prints, es, n);
  }
}
