/**
 The guarantees runtime.py and gateway.py state, over every run: any finite sequence of enabled
 events from boot, whatever the interleaving.
*/
module RuntimeTheorems {
  import opened Wrappers
  import opened RuntimeState
  import opened RuntimeInvariant
  import opened RuntimeEvents
  import opened RuntimeSteps

  predicate Legal(s: State, es: seq<Event>)
    decreases |es|, 0
  {
    es == [] ||
    (Legal(s, es[..|es| - 1]) && Enabled(After(s, es[..|es| - 1]), es[|es| - 1]))
  }

  function After(s: State, es: seq<Event>): State
    requires Legal(s, es)
    decreases |es|, 1
  {
    if es == [] then s else Step(After(s, es[..|es| - 1]), es[|es| - 1])
  }

  lemma {:induction false} RunKeeps(s: State, es: seq<Event>)
    requires Inv(s) && Legal(s, es)
    ensures Inv(After(s, es))
    decreases |es|
  {
    if es != [] {
      RunKeeps(s, es[..|es| - 1]);
      StepKeeps(After(s, es[..|es| - 1]), es[|es| - 1]);
    }
  }

  lemma Extend(s: State, es: seq<Event>, e: Event)
    requires Legal(s, es) && Enabled(After(s, es), e)
    ensures Legal(s, es + [e]) && After(s, es + [e]) == Step(After(s, es), e)
  {
    assert (es + [e])[..|es + [e]| - 1] == es;
  }

  /** A state some run from boot reaches. */
  ghost predicate Reached(prints: map<Name, string>, es: seq<Event>, s: State) {
    Legal(Init(prints), es) && After(Init(prints), es) == s
  }

  lemma ReachedInv(prints: map<Name, string>, es: seq<Event>, s: State)
    requires Reached(prints, es, s)
    ensures Inv(s)
  {
    InitKeeps(prints);
    RunKeeps(Init(prints), es);
  }

  // ------------------------------------------------------------------ the status of a surface

  /** The app a slot in the table dispatches to is serving, and its backend is open. */
  lemma DispatchedIsOpen(s: State, n: Name)
    requires Inv(s) && !Stopping(s.control) && HasSlot(s, n) && SlotOf(s, n).app.Some?
    ensures var i := SlotOf(s, n).app.value;
      && i in s.supervisors && s.supervisors[i].phase.Serving? && !s.supervisors[i].stop
      && BySupervisor(i) in s.owned && s.owned[BySupervisor(i)] in s.closes
      && s.closes[s.owned[BySupervisor(i)]] == 0
  {
    var k := s.table[n];
    assert Listed(s.table, s.slots, k);
    assert s.slots[k].app == s.slots[k].sup;
    var i := s.slots[k].sup.value;
    assert i in s.supervisors && s.supervisors[i].place == AtSlot(k);
    assert SupShape(s.supervisors[i], Stopping(s.control));
    assert BySupervisor(i) in s.owned;
  }

  /** A task that will attach the surface of slot `k`: alive, its own, not cancelled. */
  predicate Retrying(s: State, k: Id) {
    && k in s.slots && s.slots[k].retry.Some?
    && s.slots[k].retry.value in s.retries
    && s.retries[s.slots[k].retry.value].slot == k && !s.retries[s.slots[k].retry.value].cancelled
  }

  predicate Accounted(s: State, n: Name)
    requires HasSlot(s, n)
  {
    var sl := SlotOf(s, n);
    && sl.name == n
    && sl.app == sl.sup
    && (sl.app.Some? <==> n !in s.failed)
    && (sl.app.Some? ==> sl.app.value in s.supervisors && s.supervisors[sl.app.value].phase.Serving?)
    && (sl.app.None? ==> (Retrying(s, s.table[n]) <==> n !in s.configFaults))
    && (sl.configFault <==> n in s.configFaults)
  }

  /** Between reloads: the table, the registry and the fingerprints name the same surfaces; a
      slot has an app exactly if it has a supervisor, which is serving; a surface is serving or
      failed, never both; and a failed one is retried exactly if it lacks the configuration mark
      (the mark its 503 answer reads). */
  lemma EverySurfaceAccountedFor(prints: map<Name, string>, es: seq<Event>, s: State)
    requires Reached(prints, es, s) && s.control.Running?
    ensures s.table.Keys == s.registry == s.prints.Keys
    ensures s.configFaults <= s.failed <= s.table.Keys
    ensures forall n :: n in s.table ==> HasSlot(s, n) && Accounted(s, n)
  {
    ReachedInv(prints, es, s);
    forall n | n in s.table ensures HasSlot(s, n) && Accounted(s, n) {
      assert Listed(s.table, s.slots, s.table[n]);
      assert SlotOf(s, n).app == SlotOf(s, n).sup;
      assert StatusOf(s.control, SlotOf(s, n), n in s.failed, n in s.configFaults,
                      TodoOf(n, None, s.registry, s.children, s.owned));
      if SlotOf(s, n).app.Some? {
        DispatchedIsOpen(s, n);
      }
    }
  }

  /** runtime.health_body, without the pins and the kill switch. */
  datatype Health = Health(degraded: bool, surfaces: set<Name>, failed: set<Name>, needsConfigChange: set<Name>,
                           reloadFailed: set<Name>, lastReloadFailed: bool)

  function HealthBody(s: State): Health {
    Health(s.failed != {}, (set n | n in s.table && s.table[n] in s.slots && s.slots[s.table[n]].app.Some?), s.failed,
           (set n | n in s.configFaults && n in s.failed), s.reloadFailed, s.lastRefused)
  }

  /** /healthz tells the truth between reloads: it is `ok` exactly if every registered surface is
      serving, it names every registered surface as serving or failed and none as both, and
      `needs_config_change` are exactly the failed ones nothing is retrying. */
  lemma HealthIsTrue(prints: map<Name, string>, es: seq<Event>, s: State)
    requires Reached(prints, es, s) && s.control.Running?
    ensures var h := HealthBody(s);
      && (!h.degraded <==> forall n :: n in s.registry ==> HasSlot(s, n) && SlotOf(s, n).app.Some?)
      && h.surfaces + h.failed == s.registry && h.surfaces !! h.failed
      && h.needsConfigChange ==
           (set n | n in s.registry && n in s.failed && HasSlot(s, n) && !Retrying(s, s.table[n]))
  {
    EverySurfaceAccountedFor(prints, es, s);
    var h := HealthBody(s);
    assert forall n :: n in s.registry <==> n in s.table;
    assert forall n :: n in s.table ==> HasSlot(s, n) && Accounted(s, n);
    if h.degraded {
      var n :| n in s.failed;
      assert n in s.table && SlotOf(s, n).app.None?;
    }
  }

  // ------------------------------------------------------------------ backends

  predicate Held(s: State, b: Id) { exists h :: h in s.owned && s.owned[h] == b }

  /** Every backend ever attached has exactly one owner and is open, or has none and was closed
      exactly once, or was lost: dropped, unclosed, by a cancelled boot.  None that a slot in the
      table dispatches to is closed before shutdown begins to stop the supervisors. */
  lemma OneOwnerThenOneClose(prints: map<Name, string>, es: seq<Event>, s: State)
    requires Reached(prints, es, s)
    ensures forall b :: b in s.closes ==> s.closes[b] == if Held(s, b) || b in s.lost then 0 else 1
    ensures forall h, g :: h in s.owned && g in s.owned && s.owned[h] == s.owned[g] ==> h == g
    ensures forall b :: b in s.lost ==> b in s.closes && !Held(s, b)
    ensures !Stopping(s.control) ==>
      forall n :: HasSlot(s, n) && SlotOf(s, n).app.Some? ==>
        && BySupervisor(SlotOf(s, n).app.value) in s.owned
        && s.owned[BySupervisor(SlotOf(s, n).app.value)] in s.closes
        && s.closes[s.owned[BySupervisor(SlotOf(s, n).app.value)]] == 0
  {
    ReachedInv(prints, es, s);
    forall n | HasSlot(s, n) && SlotOf(s, n).app.Some? && !Stopping(s.control)
      ensures BySupervisor(SlotOf(s, n).app.value) in s.owned
      ensures s.owned[BySupervisor(SlotOf(s, n).app.value)] in s.closes
      ensures s.closes[s.owned[BySupervisor(SlotOf(s, n).app.value)]] == 0
    {
      DispatchedIsOpen(s, n);
    }
  }

  predicate SomeAttached(s: State) { exists n :: n in s.children && Attached(s, n) }

  /** boot() was cancelled at some point of the run, when a branch of its gather had attached. */
  predicate BootCancelledAttached(prints: map<Name, string>, es: seq<Event>)
    requires Legal(Init(prints), es)
    decreases |es|
  {
    es != [] &&
    var less := es[..|es| - 1];
    || BootCancelledAttached(prints, less)
    || (es[|es| - 1] == OfStop(DoBootCancel) && SomeAttached(After(Init(prints), less)))
  }

  /** A cancelled boot loses what a branch had attached... */
  lemma BootCancelLoses(s: State)
    requires Owned(s) && Holds(s) && BootCancelOk(s)
    ensures s.lost == {} && (BootCancel(s).lost != {} <==> SomeAttached(s))
  {
    forall n | n in s.children && Attached(s, n) ensures BootCancel(s).lost != {} {
      assert InBuilt(n) in s.owned;
      assert s.owned[InBuilt(n)] in BootCancel(s).lost;
    }
    if !SomeAttached(s) {
      assert forall h :: h in s.owned ==> !h.InBuilt?;
      assert BootCancel(s).lost == {};
    }
  }

  lemma BootLosesNothing(s: State, e: BootEvent)
    requires BootOk(s, e)
    ensures BootStep(s, e).lost == s.lost
  {
  }

  lemma AttachLosesNothing(s: State, e: AttachEvent)
    requires AttachOk(s, e)
    ensures AttachStep(s, e).lost == s.lost
  {
  }

  lemma SupLosesNothing(s: State, e: SupEvent)
    requires SupOk(s, e)
    ensures SupStep(s, e).lost == s.lost
  {
  }

  lemma RetryLosesNothing(s: State, e: RetryEvent)
    requires RetryOk(s, e)
    ensures RetryStep(s, e).lost == s.lost
  {
  }

  lemma ReloadLosesNothing(s: State, e: ReloadEvent)
    requires ReloadOk(s, e)
    ensures ReloadStep(s, e).lost == s.lost
  {
  }

  lemma StopLosesNothing(s: State, e: StopEvent)
    requires StopOk(s, e) && e != DoBootCancel
    ensures StopStep(s, e).lost == s.lost
  {
  }

  /** ... and nothing else does. */
  lemma OthersLoseNothing(s: State, e: Event)
    requires Enabled(s, e) && e != OfStop(DoBootCancel)
    ensures Step(s, e).lost == s.lost
  {
    match e
    case OfBoot(x) => BootLosesNothing(s, x);
    case OfAttach(x) => AttachLosesNothing(s, x);
    case OfSup(x) => SupLosesNothing(s, x);
    case OfRetry(x) => RetryLosesNothing(s, x);
    case OfReload(x) => ReloadLosesNothing(s, x);
    case OfStop(x) => StopLosesNothing(s, x);
  }

  lemma {:induction false} LostExactlyThen(prints: map<Name, string>, es: seq<Event>)
    requires Legal(Init(prints), es)
    ensures After(Init(prints), es).lost != {} <==> BootCancelledAttached(prints, es)
    decreases |es|
  {
    if es != [] {
      var n := |es| - 1;
      LostExactlyThen(prints, es[..n]);
      LostByLast(prints, es, n);
    }
  }

  lemma LostByLast(prints: map<Name, string>, es: seq<Event>, n: nat)
    requires |es| == n + 1 && Legal(Init(prints), es)
    ensures var s := After(Init(prints), es[..n]);
            After(Init(prints), es).lost != {} <==>
              s.lost != {} || (es[n] == OfStop(DoBootCancel) && SomeAttached(s))
  {
    var s := After(Init(prints), es[..n]);
    ReachedInv(prints, es[..n], s);
    if es[n] == OfStop(DoBootCancel) {
      BootCancelLoses(s);
    } else {
      OthersLoseNothing(s, es[n]);
    }
  }

  /** The promise that nothing attached leaks: every backend without an owner was closed exactly
      once.  It holds of a run exactly if boot was not cancelled in it while an attached branch sat
      in `built`. */
  lemma UnownedIsClosedExactly(prints: map<Name, string>, es: seq<Event>, s: State)
    requires Reached(prints, es, s)
    ensures (forall b :: b in s.closes && !Held(s, b) ==> s.closes[b] == 1) <==> !BootCancelledAttached(prints, es)
  {
    OneOwnerThenOneClose(prints, es, s);
    LostExactlyThen(prints, es);
    if s.lost != {} {
      var b := Member(s.lost);
      assert b in s.closes && !Held(s, b) && s.closes[b] == 0;
    }
  }

  /** After shutdown only a retry task or a supervisor can still hold a backend. */
  lemma LeftAtTheEnd(s: State, h: Holder)
    requires Inv(s) && s.control.Down? && h in s.owned
    ensures (h.ByRetry? && h.task in s.retries && s.retries[h.task].phase.Finishing?)
         || (h.BySupervisor? && h.sup in s.supervisors && !s.supervisors[h.sup].phase.Closed?)
  {
  }

  /** When shutdown has returned and no app died while it waited, every backend is closed and no
      retry task is left. */
  lemma ShutdownClosesEverything(prints: map<Name, string>, es: seq<Event>, s: State)
    requires Reached(prints, es, s) && s.control.Down? && s.lateDeaths == 0
    ensures forall b :: b in s.closes ==> s.closes[b] == 1
    ensures forall t :: t !in s.retries
  {
    ReachedInv(prints, es, s);
    forall b | b in s.closes ensures s.closes[b] == 1 {
      if s.closes[b] == 0 {
        var h :| h in s.owned && s.owned[h] == b;
        LeftAtTheEnd(s, h);
      }
    }
  }

  lemma HolderIsOpen(s: State, h: Holder)
    requires Owned(s) && Holds(s)
    requires h in s.owned
    ensures exists b :: b in s.closes && s.closes[b] == 0
  {
    var b := s.owned[h];
    assert b in s.closes && s.closes[b] == 0;
  }

  // ------------------------------------------------------------------ requests and drains

  predicate OutOfService(s: State, i: Id) { i in s.supervisors && s.supervisors[i].stop }

  predicate NotRaised(s: State, r: State, i: Id)
    requires OutOfService(s, i)
  {
    OutOfService(r, i) && r.supervisors[i].active <= s.supervisors[i].active
  }

  /** A request is only ever dispatched to an app that is in service. */
  lemma DispatchedInService(table: map<Name, Id>, slots: map<Id, Slot>, supervisors: map<Id, Supervisor>,
                            stopping: bool, k: Id)
    requires SlotsPlaced(table, slots, supervisors) && SupShapes(supervisors, stopping)
    requires k in slots && Listed(table, slots, k) && slots[k].app.Some?
    ensures slots[k].app.value in supervisors && !supervisors[slots[k].app.value].stop
  {
    var i := slots[k].app.value;
    assert slots[k].sup == Some(i);
    assert supervisors[i].place == AtSlot(k);
    assert SupShape(supervisors[i], stopping);
  }

  lemma SupNotRaised(s: State, e: SupEvent, i: Id)
    requires Inv(s) && SupOk(s, e) && OutOfService(s, i)
    ensures NotRaised(s, SupStep(s, e), i)
  {
    if e.DoRequest? {
      assert Listed(s.table, s.slots, s.table[e.n]);
      DispatchedInService(s.table, s.slots, s.supervisors, Stopping(s.control), s.table[e.n]);
    }
  }

  lemma RetryNotRaised(s: State, e: RetryEvent, i: Id)
    requires Below(s.supervisors, s.next) && RetryOk(s, e) && OutOfService(s, i)
    ensures NotRaised(s, RetryStep(s, e), i)
  {
  }

  lemma ReloadNotRaised(s: State, e: ReloadEvent, i: Id)
    requires Below(s.supervisors, s.next) && ReloadOk(s, e) && OutOfService(s, i)
    ensures NotRaised(s, ReloadStep(s, e), i)
  {
  }

  lemma AttachNotRaised(s: State, e: AttachEvent, i: Id)
    requires Below(s.supervisors, s.next) && AttachOk(s, e) && OutOfService(s, i)
    ensures NotRaised(s, AttachStep(s, e), i)
  {
  }

  lemma BootNotRaised(s: State, e: BootEvent, i: Id)
    requires Below(s.supervisors, s.next) && BootOk(s, e) && OutOfService(s, i)
    ensures NotRaised(s, BootStep(s, e), i)
  {
  }

  lemma StopNotRaised(s: State, e: StopEvent, i: Id)
    requires Below(s.supervisors, s.next) && StopOk(s, e) && OutOfService(s, i)
    ensures NotRaised(s, StopStep(s, e), i)
  {
  }

  /** Once an app is swapped out or its slot removed, no step raises its count of requests. */
  lemma RetiredNeverRises(s: State, e: Event, i: Id)
    requires Inv(s) && Enabled(s, e) && OutOfService(s, i)
    ensures NotRaised(s, Step(s, e), i)
  {
    match e
    case OfSup(x) => SupNotRaised(s, x, i);
    case OfRetry(x) => RetryNotRaised(s, x, i);
    case OfReload(x) => ReloadNotRaised(s, x, i);
    case OfBoot(x) => BootNotRaised(s, x, i);
    case OfStop(x) => StopNotRaised(s, x, i);
    case OfAttach(x) => AttachNotRaised(s, x, i);
  }

  /** So a drained app closes its backend with no request in flight. */
  lemma DrainedClosesIdle(prints: map<Name, string>, es: seq<Event>, s: State, i: Id)
    requires Reached(prints, es, s) && SupEndOk(s, i, Drained)
    ensures s.supervisors[i].active == 0
  {
    ReachedInv(prints, es, s);
    assert SupShape(s.supervisors[i], Stopping(s.control));
  }

  // ------------------------------------------------------------------ installs and reloads

  /** _install's "removed while its app was starting" branch is dead code for a retry: a retry
      whose install can go on still has its slot in the table. */
  lemma NeverInstallsOnRemoved(prints: map<Name, string>, es: seq<Event>, s: State, t: Id)
    requires Reached(prints, es, s) && RetryReady(s, t)
    ensures RetryInstalledOk(s, t)
  {
    ReachedInv(prints, es, s);
  }

  /** The surface is in the registry before and after, with the same fingerprint. */
  predicate Unchanged(s: State, n: Name) {
    match s.control
    case Gathering(incoming) => n in s.prints && n in incoming && incoming[n] == s.prints[n]
    case Applying(incoming, _) => n in s.prints && n in incoming && incoming[n] == s.prints[n]
    case _ => false
  }

  predicate SameSurface(s: State, r: State, n: Name) {
    && HasSlot(s, n) && HasSlot(r, n) && r.table[n] == s.table[n] && SlotOf(r, n) == SlotOf(s, n)
    && (n in r.failed <==> n in s.failed) && (n in r.configFaults <==> n in s.configFaults)
  }

  lemma UnchangedSlot(s: State, e: ReloadEvent, n: Name)
    requires TableOk(s.table, s.slots) && Below(s.slots, s.next) && Names(s) && ReloadOk(s, e) && Unchanged(s, n)
    ensures HasSlot(s, n) && HasSlot(ReloadStep(s, e), n)
    ensures ReloadStep(s, e).table[n] == s.table[n] && SlotOf(ReloadStep(s, e), n) == SlotOf(s, n)
  {
    assert n in s.table;
    assert n !in Targets(s.prints, s.control.incoming);
  }

  lemma UnchangedMarks(s: State, e: ReloadEvent, n: Name)
    requires TableOk(s.table, s.slots) && Below(s.slots, s.next) && Names(s) && ReloadOk(s, e) && Unchanged(s, n)
    ensures n in ReloadStep(s, e).failed <==> n in s.failed
    ensures n in ReloadStep(s, e).configFaults <==> n in s.configFaults
  {
    assert n in s.table;
    assert n !in Targets(s.prints, s.control.incoming);
  }

  lemma UnchangedSupervisor(s: State, e: ReloadEvent, n: Name)
    requires Slotted(s) && Waited(s) && Names(s) && ReloadOk(s, e) && Unchanged(s, n)
    requires HasSlot(s, n) && SlotOf(s, n).sup.Some?
    ensures var i := SlotOf(s, n).sup.value; var r := ReloadStep(s, e);
      i in s.supervisors && i in r.supervisors && r.supervisors[i] == s.supervisors[i]
  {
    assert Listed(s.table, s.slots, s.table[n]);
    assert n !in Targets(s.prints, s.control.incoming);
    assert s.slots[s.table[n]].app == s.slots[s.table[n]].sup;
  }

  /** No step of a reload touches an unchanged surface: same slot, same app, same retry, same
      marks, and its supervisor neither stopped nor cancelled. */
  lemma ReloadLeavesUnchangedAlone(s: State, e: ReloadEvent, n: Name)
    requires Inv(s) && ReloadOk(s, e) && Unchanged(s, n)
    ensures var r := ReloadStep(s, e);
      && SameSurface(s, r, n)
      && (SlotOf(s, n).sup.Some? ==>
            && SlotOf(s, n).sup.value in s.supervisors && SlotOf(s, n).sup.value in r.supervisors
            && r.supervisors[SlotOf(s, n).sup.value] == s.supervisors[SlotOf(s, n).sup.value])
  {
    UnchangedSlot(s, e, n);
    UnchangedMarks(s, e, n);
    if SlotOf(s, n).sup.Some? {
      UnchangedSupervisor(s, e, n);
    }
  }
}
