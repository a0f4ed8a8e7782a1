/** What every step of CatalogueState keeps, and what holds after every sequence of steps. */
module CatalogueProofs {
  import opened Wrappers
  import opened CatalogueState

  // ------------------------------------------------------------------ the invariant

  /** At most one re-list is in flight, and the flag says whether one is. */
  ghost predicate OneFlight(running: map<Id, real>, refreshing: bool, next: Id) {
    && (forall r <- running :: r < next)
    && (forall r, q :: r in running && q in running ==> r == q)
    && (refreshing <==> running != map[])
  }

  ghost predicate Derived(s: State) {
    && (s.index.Some? ==> s.index.value == IndexOf(s.descriptors))
    && (s.byName.Some? ==> s.byName.value == ByName(s.descriptors))
  }

  /** The names after a drift. */
  function Applied(names: set<Name>, d: Drift): set<Name> { (names - d.removed) + d.added }

  /** All drifts, from attach to now. */
  function Replay(names: set<Name>, attempts: seq<Attempt>): set<Name> {
    if attempts == [] then names
    else
      var before, a := Replay(names, attempts[..|attempts| - 1]), attempts[|attempts| - 1];
      if a.result.Relisted? then Applied(before, a.result.drift) else before
  }

  /** The index of the last re-list that returned, or -1. */
  function LastRelist(attempts: seq<Attempt>): (r: int)
    ensures -1 <= r < |attempts|
    ensures r >= 0 ==> attempts[r].result.Relisted?
    ensures forall i :: r < i < |attempts| ==> !attempts[i].result.Relisted?
  {
    if attempts == [] then -1
    else if attempts[|attempts| - 1].result.Relisted? then |attempts| - 1
    else LastRelist(attempts[..|attempts| - 1])
  }

  /** The last attempt that was not cancelled, or -1. */
  function LastOutcome(attempts: seq<Attempt>): (r: int)
    ensures -1 <= r < |attempts|
    ensures r >= 0 ==> !attempts[r].result.Cancelled?
    ensures forall i :: r < i < |attempts| ==> attempts[i].result.Cancelled?
  {
    if attempts == [] then -1
    else if !attempts[|attempts| - 1].result.Cancelled? then |attempts| - 1
    else LastOutcome(attempts[..|attempts| - 1])
  }

  /** What is reported is what the last re-list that returned found, and how the last one ended. */
  ghost predicate Reported(attempts: seq<Attempt>, drift: Drift, status: Status, on: bool) {
    var r, o := LastRelist(attempts), LastOutcome(attempts);
    && drift == (if r < 0 then Drift({}, {}, {}) else attempts[r].result.drift)
    && status == (if !on then NoStatus
                  else if o < 0 then Fine
                  else if attempts[o].result.Raised? then Stale
                  else if Changed(drift) then Drifted else Fine)
  }

  ghost predicate Missing(s: State) {
    LastRelist(s.attempts) >= 0 ==> s.drift.pinnedMissing == s.pinned - Names(s.descriptors)
  }

  predicate Apart(from: real, to: real, ttlMs: int) { (to - from) * 1000.0 >= ttlMs as real }

  /** Outcomes end at fetchedAt or before, and whatever runs started a TTL after that. */
  ghost predicate Spaced(attempts: seq<Attempt>, running: map<Id, real>, fetchedAt: real, ttlMs: Option<int>,
                         now: real) {
    && (forall i :: 0 <= i < |attempts| && !attempts[i].result.Cancelled? ==> attempts[i].ended <= fetchedAt)
    && (forall i, j :: 0 <= i < j < |attempts| && !attempts[i].result.Cancelled? && ttlMs.Some? ==>
          Apart(attempts[i].ended, attempts[j].started, ttlMs.value))
    && (forall r <- running :: ttlMs.Some? && Apart(fetchedAt, running[r], ttlMs.value) && running[r] <= now)
    && fetchedAt <= now
  }

  ghost predicate Inv(s: State) {
    && OneFlight(s.running, s.refreshing, s.next)
    && Derived(s)
    && Names(s.descriptors) == Replay(s.attached, s.attempts)
    && Reported(s.attempts, s.drift, s.status, On(s))
    && Missing(s)
    && Spaced(s.attempts, s.running, s.fetchedAt, s.ttlMs, s.now)
    && (!On(s) ==> s.running == map[] && s.attempts == [])
  }

  lemma InitKeeps(ds: seq<Descriptor>, ttlMs: Option<int>, now: real)
    ensures Inv(Init(ds, ttlMs, now))
  {}

  // ------------------------------------------------------------------ the steps

  lemma OverEmpties(running: map<Id, real>, refreshing: bool, next: Id, r: Id)
    requires OneFlight(running, refreshing, next) && r in running
    ensures running - {r} == map[]
  {
    forall q | q in running ensures q == r {}
  }

  lemma LastAppend(attempts: seq<Attempt>, a: Attempt)
    ensures LastRelist(attempts + [a]) == if a.result.Relisted? then |attempts| else LastRelist(attempts)
    ensures LastOutcome(attempts + [a]) == if a.result.Cancelled? then LastOutcome(attempts) else |attempts|
  {
    assert (attempts + [a])[..|attempts|] == attempts;
  }

  lemma ReplayAppend(names: set<Name>, attempts: seq<Attempt>, a: Attempt)
    ensures Replay(names, attempts + [a]) ==
            if a.result.Relisted? then Applied(Replay(names, attempts), a.result.drift) else Replay(names, attempts)
  {
    assert (attempts + [a])[..|attempts|] == attempts;
  }

  lemma ReportedAppend(attempts: seq<Attempt>, drift: Drift, status: Status, a: Attempt)
    requires Reported(attempts, drift, status, true)
    ensures a.result.Relisted? ==>
              Reported(attempts + [a], a.result.drift, if Changed(a.result.drift) then Drifted else Fine, true)
    ensures a.result.Raised? ==> Reported(attempts + [a], drift, Stale, true)
    ensures a.result.Cancelled? ==> Reported(attempts + [a], drift, status, true)
  {
    LastAppend(attempts, a);
  }

  lemma SpacedOver(attempts: seq<Attempt>, running: map<Id, real>, fetchedAt: real, ttlMs: Option<int>, was: real,
                   r: Id, now: real, result: Ending)
    requires Spaced(attempts, running, fetchedAt, ttlMs, was) && r in running && was <= now
    ensures Spaced(attempts + [Attempt(running[r], now, result)], map[],
                   if result.Cancelled? then fetchedAt else now, ttlMs, now)
  {
    forall i | 0 <= i < |attempts| && !attempts[i].result.Cancelled? && ttlMs.Some?
      ensures Apart(attempts[i].ended, running[r], ttlMs.value)
    {
      assert Apart(fetchedAt, running[r], ttlMs.value);
    }
  }

  lemma DriftLeads(s: State, listed: seq<Descriptor>)
    ensures Applied(Names(s.descriptors), DriftTo(s, listed)) == Names(listed)
  {}

  lemma EnsureKeeps(s: State, now: real)
    requires Inv(s) && s.now <= now
    ensures Inv(Ensure(s, now))
  {
    if Due(s, now) && !s.refreshing {
      assert s.running == map[];
      assert Apart(s.fetchedAt, now, s.ttlMs.value);
      assert s.next in Ensure(s, now).running;
    }
  }

  lemma RelistKeeps(s: State, r: Id, listed: seq<Descriptor>, now: real)
    requires Inv(s) && OverOk(s, r, now)
    ensures Inv(Relist(s, r, listed, now))
  {
    var a := Attempt(s.running[r], now, Relisted(DriftTo(s, listed)));
    OverEmpties(s.running, s.refreshing, s.next, r);
    LastAppend(s.attempts, a);
    ReplayAppend(s.attached, s.attempts, a);
    ReportedAppend(s.attempts, s.drift, s.status, a);
    SpacedOver(s.attempts, s.running, s.fetchedAt, s.ttlMs, s.now, r, now, a.result);
    DriftLeads(s, listed);
  }

  lemma RaiseKeeps(s: State, r: Id, now: real)
    requires Inv(s) && OverOk(s, r, now)
    ensures Inv(Raise(s, r, now))
  {
    var a := Attempt(s.running[r], now, Raised);
    OverEmpties(s.running, s.refreshing, s.next, r);
    LastAppend(s.attempts, a);
    ReplayAppend(s.attached, s.attempts, a);
    ReportedAppend(s.attempts, s.drift, s.status, a);
    SpacedOver(s.attempts, s.running, s.fetchedAt, s.ttlMs, s.now, r, now, a.result);
  }

  lemma CancelKeeps(s: State, r: Id, now: real)
    requires Inv(s) && OverOk(s, r, now)
    ensures Inv(Cancel(s, r, now))
  {
    var a := Attempt(s.running[r], now, Cancelled);
    OverEmpties(s.running, s.refreshing, s.next, r);
    LastAppend(s.attempts, a);
    ReplayAppend(s.attached, s.attempts, a);
    ReportedAppend(s.attempts, s.drift, s.status, a);
    SpacedOver(s.attempts, s.running, s.fetchedAt, s.ttlMs, s.now, r, now, a.result);
  }

  lemma StepKeeps(s: State, e: Event)
    requires Inv(s) && Enabled(s, e)
    ensures Inv(Step(s, e))
  {
    match e
    case DoEnsure(now) => EnsureKeeps(s, now);
    case DoRelist(r, listed, now) => RelistKeeps(s, r, listed, now);
    case DoRaise(r, now) => RaiseKeeps(s, r, now);
    case DoCancel(r, now) => CancelKeeps(s, r, now);
    case DoReadIndex =>
    case DoReadNames =>
  }

  // ------------------------------------------------------------------ every run

  lemma {:induction false} RunKeeps(ds: seq<Descriptor>, ttlMs: Option<int>, now: real, es: seq<Event>)
    requires Legal(Init(ds, ttlMs, now), es)
    ensures Inv(After(Init(ds, ttlMs, now), es))
    decreases |es|
  {
    if es == [] {
      InitKeeps(ds, ttlMs, now);
    } else {
      RunKeeps(ds, ttlMs, now, es[..|es| - 1]);
      StepKeeps(After(Init(ds, ttlMs, now), es[..|es| - 1]), es[|es| - 1]);
    }
  }

  ghost predicate Reached(s: State) {
    exists ds, ttlMs, now, es :: Legal(Init(ds, ttlMs, now), es) && s == After(Init(ds, ttlMs, now), es)
  }

  lemma ReachedInv(s: State)
    requires Reached(s)
    ensures Inv(s)
  {
    var ds, ttlMs, now, es :| Legal(Init(ds, ttlMs, now), es) && s == After(Init(ds, ttlMs, now), es);
    RunKeeps(ds, ttlMs, now, es);
  }

  lemma OneRelistAtATime(s: State, r: Id, q: Id)
    requires Reached(s) && r in s.running && q in s.running
    ensures r == q && s.refreshing
  {
    ReachedInv(s);
    assert s.running != map[];
  }

  /** What a reader gets is built from the descriptors of that moment, whichever step came before. */
  lemma DerivedFromTheCurrentTools(s: State)
    requires Reached(s)
    ensures ReadIndex(s).index == Some(IndexOf(s.descriptors))
    ensures ReadNames(s).byName == Some(ByName(s.descriptors))
    ensures ByName(s.descriptors).Keys == Names(s.descriptors)
  {
    ReachedInv(s);
    ByNameKeys(s.descriptors);
  }

  lemma {:induction false} ByNameKeys(ds: seq<Descriptor>)
    ensures ByName(ds).Keys == Names(ds)
    ensures forall n <- ByName(ds) :: ByName(ds)[n] in ds && ByName(ds)[n].name == n
  {
    if ds != [] {
      ByNameKeys(ds[..|ds| - 1]);
      var d := ds[|ds| - 1];
      assert ds == ds[..|ds| - 1] + [d];
      assert Names(ds) == Names(ds[..|ds| - 1]) + {d.name};
    }
  }

  /** A re-list's drift is exactly the difference it makes, and all of them together lead from the
      tools at attach to those of now. */
  lemma DriftsReplay(s: State, r: Id, listed: seq<Descriptor>, now: real)
    requires Reached(s)
    ensures Names(s.descriptors) == Replay(s.attached, s.attempts)
    ensures OverOk(s, r, now) ==>
              var s' := Relist(s, r, listed, now);
              && Names(s'.descriptors) == (Names(s.descriptors) - s'.drift.removed) + s'.drift.added
              && s'.drift.removed <= Names(s.descriptors) && s'.drift.added !! Names(s.descriptors)
              && s'.drift.pinnedMissing == s.pinned - Names(s'.descriptors) && s'.pinned == s.pinned
              && s'.status == (if Names(s'.descriptors) == Names(s.descriptors) && s.pinned <= Names(s'.descriptors)
                               then Fine else Drifted)
  {
    ReachedInv(s);
  }

  /** A reported drift is replaced only by a re-list that started a TTL or more after it was
      reported, and that is the only thing that replaces it. */
  lemma DriftStands(s: State, e: Event)
    requires Reached(s) && Enabled(s, e) && Step(s, e).drift != s.drift
    ensures e.DoRelist? && s.ttlMs.Some?
    ensures forall i :: 0 <= i < |s.attempts| && s.attempts[i].result.Relisted? ==>
              Apart(s.attempts[i].ended, s.running[e.r], s.ttlMs.value)
  {
    ReachedInv(s);
    assert Apart(s.fetchedAt, s.running[e.r], s.ttlMs.value);
  }

  /** A backend is asked again only a TTL after the last time it answered or failed. */
  lemma AskedOncePerTtl(s: State, i: nat, j: nat)
    requires Reached(s) && i < j < |s.attempts| && !s.attempts[i].result.Cancelled?
    ensures s.ttlMs.Some? && Apart(s.attempts[i].ended, s.attempts[j].started, s.ttlMs.value)
  {
    ReachedInv(s);
  }

  /** The status says how the last attempt that was not cancelled ended, and the drift what the last
      one that listed anything found. */
  lemma StatusIsTrue(s: State)
    requires Reached(s) && On(s)
    ensures var o := LastOutcome(s.attempts);
            && (s.status == Stale <==> o >= 0 && s.attempts[o].result.Raised?)
            && (s.status == Drifted <==>
                o >= 0 && s.attempts[o].result.Relisted? && Changed(s.attempts[o].result.drift))
            && (LastRelist(s.attempts) >= 0 ==> s.drift.pinnedMissing == s.pinned - Names(s.descriptors))
  {
    ReachedInv(s);
    var o := LastOutcome(s.attempts);
    if o >= 0 && s.attempts[o].result.Relisted? { assert LastRelist(s.attempts) == o; }
  }

  /** Without a relister, or with a TTL of zero, nothing is ever re-listed or claimed. */
  lemma OffMeansInert(s: State)
    requires Reached(s) && !On(s)
    ensures s.attempts == [] && s.running == map[] && s.status == NoStatus
    ensures Names(s.descriptors) == s.attached && !Changed(s.drift)
  {
    ReachedInv(s);
  }

  // ------------------------------------------------------------------ when it asks again

  /** When the backend last answered or failed, or was attached. */
  function Since(attachedAt: real, attempts: seq<Attempt>): real {
    if LastOutcome(attempts) < 0 then attachedAt else attempts[LastOutcome(attempts)].ended
  }

  lemma {:induction false} FetchedSince(ds: seq<Descriptor>, ttlMs: Option<int>, at: real, es: seq<Event>)
    requires Legal(Init(ds, ttlMs, at), es)
    ensures var s := After(Init(ds, ttlMs, at), es);
      s.fetchedAt == Since(at, s.attempts) && s.ttlMs == ttlMs && s.pinned == PinnedNames(ds) && s.attached == Names(ds)
    decreases |es|
  {
    if es != [] {
      var s, e := After(Init(ds, ttlMs, at), es[..|es| - 1]), es[|es| - 1];
      FetchedSince(ds, ttlMs, at, es[..|es| - 1]);
      FetchedStep(s, e, at);
    }
  }

  lemma FetchedStep(s: State, e: Event, at: real)
    requires Enabled(s, e) && s.fetchedAt == Since(at, s.attempts)
    ensures var s' := Step(s, e);
      && s'.fetchedAt == Since(at, s'.attempts)
      && s'.ttlMs == s.ttlMs && s'.pinned == s.pinned && s'.attached == s.attached
  {
    match e
    case DoRelist(r, listed, now) =>
      SinceAppend(at, s.attempts, Attempt(s.running[r], now, Relisted(DriftTo(s, listed))));
    case DoRaise(r, now) => SinceAppend(at, s.attempts, Attempt(s.running[r], now, Raised));
    case DoCancel(r, now) => SinceAppend(at, s.attempts, Attempt(s.running[r], now, Cancelled));
    case _ =>
  }

  lemma SinceAppend(at: real, attempts: seq<Attempt>, a: Attempt)
    ensures Since(at, attempts + [a]) == if a.result.Cancelled? then Since(at, attempts) else a.ended
  {
    LastAppend(attempts, a);
  }

  /** A call re-lists exactly when there is a relister with a TTL, that many milliseconds are over
      since the backend last answered or failed, and nobody is at it: then it always does. */
  lemma RelistsExactlyWhenDue(ds: seq<Descriptor>, ttlMs: Option<int>, at: real, es: seq<Event>, s: State, now: real)
    requires Legal(Init(ds, ttlMs, at), es) && s == After(Init(ds, ttlMs, at), es) && s.now <= now
    ensures var s' := Ensure(s, now);
      if && ttlMs.Some? && ttlMs.value != 0 && s.running == map[]
         && (now - Since(at, s.attempts)) * 1000.0 >= ttlMs.value as real
      then exists r :: r !in s.running && s'.running == map[r := now]
      else s'.running == s.running
  {
    RunKeeps(ds, ttlMs, at, es);
    FetchedSince(ds, ttlMs, at, es);
    assert s.running == map[] ==> s.running[s.next := now] == map[s.next := now];
  }

  /** `pinned_missing` are the tools pinned at attach that are no longer listed, whatever later lists
      call pinned. */
  lemma MissingArePinnedAtAttach(ds: seq<Descriptor>, ttlMs: Option<int>, at: real, es: seq<Event>, s: State, n: Name)
    requires Legal(Init(ds, ttlMs, at), es) && s == After(Init(ds, ttlMs, at), es) && LastRelist(s.attempts) >= 0
    ensures n in s.drift.pinnedMissing <==>
      (exists i :: 0 <= i < |ds| && ds[i].pinned && ds[i].name == n)
      && forall i :: 0 <= i < |s.descriptors| ==> s.descriptors[i].name != n
  {
    RunKeeps(ds, ttlMs, at, es);
    FetchedSince(ds, ttlMs, at, es);
    if n in PinnedNames(ds) {
      var d :| d in ds && d.pinned && d.name == n;
      var i :| 0 <= i < |ds| && ds[i] == d;
      assert ds[i].pinned && ds[i].name == n;
    }
  }

  /** A later tool of the same name wins. */
  lemma {:induction false} LastWins(ds: seq<Descriptor>, i: nat)
    requires i < |ds| && forall j :: i < j < |ds| ==> ds[j].name != ds[i].name
    ensures ds[i].name in ByName(ds) && ByName(ds)[ds[i].name] == ds[i]
  {
    if i < |ds| - 1 {
      LastWins(ds[..|ds| - 1], i);
    }
  }
}
