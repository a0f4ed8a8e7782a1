/**
 Which entry of the registry a surface serves.  Every backend remembers the entry it was attached
 from; a retry carries the one it attaches.
*/
module RuntimeSource {
  import opened Wrappers
  import opened RuntimeState
  import opened RuntimeInvariant
  import opened RuntimeEvents
  import opened RuntimeSteps
  import opened RuntimeTheorems
  import Reload

  // ------------------------------------------------------------------ what a reload attaches

  /** A reload attaches exactly what was added to the registry or changed in it ... */
  lemma ReloadAttachesExactly(s: State, incoming: map<Name, string>, n: Name)
    requires Reloadable(s)
    ensures n in ReloadBegin(s, incoming).children <==>
            n in incoming && (n !in s.prints || s.prints[n] != incoming[n])
  {}

  /** ... the names on those two lists of the diff. */
  lemma ReloadAttachesTheDiff(s: State, incoming: map<Name, string>)
    requires Reloadable(s)
    ensures var d := Reload.DiffOf(s.prints, incoming);
      ReloadBegin(s, incoming).children.Keys == Reload.Elements(d.added) + Reload.Elements(d.changed)
  {
    Reload.DiffElements(s.prints, incoming);
  }

  // ------------------------------------------------------------------ the parts

  /** Booting, between reloads, or in one that has not been cancelled. */
  predicate InForce(c: Control) {
    c.Booting? || c.Built? || c.StartUp? || c.Running? || c.Gathering? || c.Applying?
  }

  /** The entry each held backend was attached from. */
  function Sources(owned: map<Holder, Id>, origin: map<Id, string>): map<Holder, string> {
    map h | h in owned :: if owned[h] in origin then origin[owned[h]] else ""
  }

  function Handed(src: map<Holder, string>, from: Holder, to: Holder): map<Holder, string> {
    if from in src then (src - {from})[to := src[from]] else src
  }

  /** The entry a surface should serve by now: once a reload has dealt with it, the new one. */
  function Due(control: Control, prints: map<Name, string>, children: map<Name, Child>, n: Name): string {
    if control.Applying? && n in control.incoming && n !in children then control.incoming[n] else EntryOf(prints, n)
  }

  ghost predicate ChildrenFrom(src: map<Holder, string>, registry: map<Name, string>) {
    && (forall n :: ByChild(n) in src ==> src[ByChild(n)] == EntryOf(registry, n))
    && (forall n :: InBuilt(n) in src ==> src[InBuilt(n)] == EntryOf(registry, n))
  }

  ghost predicate BootedFrom(src: map<Holder, string>, prints: map<Name, string>) {
    forall n :: InBooted(n) in src ==> src[InBooted(n)] == EntryOf(prints, n)
  }

  ghost predicate CurrentFrom(src: map<Holder, string>, cur: Option<Install>, registry: map<Name, string>) {
    cur.Some? && BySupervisor(cur.value.sup) in src ==>
      src[BySupervisor(cur.value.sup)] == EntryOf(registry, cur.value.name)
  }

  ghost predicate RetriesFrom(src: map<Holder, string>, retries: map<Id, Retry>) {
    && (forall t :: t in retries && ByRetry(t) in src ==> src[ByRetry(t)] == retries[t].entry)
    && (forall t :: t in retries && retries[t].phase.Starting? && BySupervisor(retries[t].phase.sup) in src ==>
          src[BySupervisor(retries[t].phase.sup)] == retries[t].entry)
  }

  ghost predicate RetriesDue(control: Control, prints: map<Name, string>, children: map<Name, Child>,
                             slots: map<Id, Slot>, retries: map<Id, Retry>) {
    forall t :: t in retries && !retries[t].cancelled && retries[t].slot in slots ==>
      retries[t].entry == Due(control, prints, children, slots[retries[t].slot].name)
  }

  /** A surface's app was attached from the entry it is due to serve, or its reload has failed, or it
      is being replaced. */
  ghost predicate SlotsFrom(src: map<Holder, string>, control: Control, prints: map<Name, string>,
                            children: map<Name, Child>, table: map<Name, Id>, slots: map<Id, Slot>,
                            reloadFailed: set<Name>) {
    forall n :: n in table && table[n] in slots && slots[table[n]].sup.Some?
                && n !in reloadFailed && !IsCurrent(Current(control), n)
                && BySupervisor(slots[table[n]].sup.value) in src ==>
      src[BySupervisor(slots[table[n]].sup.value)] == Due(control, prints, children, n)
  }

  function Src(s: State): map<Holder, string> { Sources(s.owned, s.origin) }

  ghost predicate HeldFrom(s: State) {
    && ChildrenFrom(Src(s), Reading(s.control, s.prints)) && BootedFrom(Src(s), s.prints)
    && CurrentFrom(Src(s), Current(s.control), Reading(s.control, s.prints))
    && RetriesFrom(Src(s), s.retries)
  }

  ghost predicate Tried(s: State) { RetriesDue(s.control, s.prints, s.children, s.slots, s.retries) }

  ghost predicate Served(s: State) {
    SlotsFrom(Src(s), s.control, s.prints, s.children, s.table, s.slots, s.reloadFailed)
  }

  ghost predicate Sourced(s: State) { InForce(s.control) ==> HeldFrom(s) && Tried(s) && Served(s) }

  // ------------------------------------------------------------------ the ledger

  lemma SrcNew(owned: map<Holder, Id>, closes: map<Id, nat>, lost: set<Id>, origin: map<Id, string>, h: Holder,
               b: Id, entry: string)
    requires Ownership(owned, closes, lost) && b !in closes
    ensures Sources(owned[h := b], origin[b := entry]) == Sources(owned, origin)[h := entry]
  {
  }

  lemma SrcPass(owned: map<Holder, Id>, origin: map<Id, string>, a: Holder, b: Holder)
    ensures Sources(Passed(owned, a, b), origin) == Handed(Sources(owned, origin), a, b)
  {
  }

  lemma SrcClose(owned: map<Holder, Id>, origin: map<Id, string>, h: Holder)
    ensures Sources(owned - {h}, origin) == Sources(owned, origin) - {h}
  {
  }


  // ------------------------------------------------------------------ boot

  lemma HeldBootOne(s: State, n: Name)
    requires HeldFrom(s) && BootOneOk(s, n)
    ensures HeldFrom(BootOne(s, n))
  {
    SrcPass(s.owned, s.origin, InBuilt(n), InBooted(n));
  }

  lemma HeldStartInstall(s: State, n: Name)
    requires Below(s.supervisors, s.next) && TasksStart(s.retries, s.supervisors)
    requires HeldFrom(s) && StartInstallOk(s, n)
    ensures HeldFrom(StartInstall(s, n))
  {
    HandedToNew(s, InBooted(n), s.prints, s.prints);
    SrcPass(s.owned, s.origin, InBooted(n), BySupervisor(s.next));
  }

  lemma HeldStartRetry(s: State, n: Name)
    requires Owned(s) && Holds(s) && Slotted(s) && Waited(s) && Tasks(s) && Names(s)
    requires HeldFrom(s) && StartRetryOk(s, n)
    ensures HeldFrom(StartRetry(s, n))
  {
  }

  lemma HeldStartInstalled(s: State)
    requires HeldFrom(s) && StartInstalledOk(s)
    ensures HeldFrom(StartInstalled(s))
  {
  }

  lemma HeldBoot(s: State, e: BootEvent)
    requires Owned(s) && Holds(s) && Slotted(s) && Waited(s) && Tasks(s) && Names(s)
    requires HeldFrom(s) && BootOk(s, e)
    ensures HeldFrom(BootStep(s, e))
  {
    match e
    case DoBootOne(n) => HeldBootOne(s, n);
    case DoStartInstall(n) => HeldStartInstall(s, n);
    case DoStartRetry(n) => HeldStartRetry(s, n);
    case DoStartInstalled => HeldStartInstalled(s);
    case _ =>
  }

  lemma TriedBoot(s: State, e: BootEvent)
    requires Slotted(s) && Tasks(s) && Names(s) && Shown(s)
    requires Tried(s) && BootOk(s, e)
    ensures Tried(BootStep(s, e))
  {
  }

  lemma ServedBootOne(s: State, n: Name)
    requires Owned(s) && Slotted(s) && Waited(s) && Tasks(s) && Names(s)
    requires Served(s) && BootOneOk(s, n)
    ensures Served(BootOne(s, n))
  {
    SrcPass(s.owned, s.origin, InBuilt(n), InBooted(n));
  }

  lemma ServedStartInstall(s: State, n: Name)
    requires Owned(s) && Slotted(s) && Waited(s) && Tasks(s) && Names(s)
    requires Served(s) && StartInstallOk(s, n)
    ensures Served(StartInstall(s, n))
  {
    SrcPass(s.owned, s.origin, InBooted(n), BySupervisor(s.next));
    SupsAreOld(s);
  }

  lemma ServedStartInstalled(s: State)
    requires Owned(s) && Slotted(s) && Waited(s) && Tasks(s) && Names(s)
    requires HeldFrom(s) && Served(s) && StartInstalledOk(s)
    ensures Served(StartInstalled(s))
  {
  }

  lemma ServedBoot(s: State, e: BootEvent)
    requires Owned(s) && Slotted(s) && Waited(s) && Tasks(s) && Names(s)
    requires HeldFrom(s) && Served(s) && BootOk(s, e)
    ensures Served(BootStep(s, e))
  {
    match e
    case DoBootOne(n) => ServedBootOne(s, n);
    case DoStartInstall(n) => ServedStartInstall(s, n);
    case DoStartInstalled => ServedStartInstalled(s);
    case _ =>
  }

  lemma SupsAreOld(s: State)
    requires Slotted(s)
    ensures forall n :: n in s.table && s.table[n] in s.slots && s.slots[s.table[n]].sup.Some? ==>
      s.slots[s.table[n]].sup.value < s.next
  {
    forall n | n in s.table && s.table[n] in s.slots && s.slots[s.table[n]].sup.Some?
      ensures s.slots[s.table[n]].sup.value < s.next
    {
      var k := s.table[n];
      assert s.slots[k].app == s.slots[k].sup;
    }
  }

  /** A backend goes to a supervisor that is new. */
  lemma HandedToNew(s: State, h: Holder, prints: map<Name, string>, registry: map<Name, string>)
    requires Below(s.supervisors, s.next) && TasksStart(s.retries, s.supervisors) && !h.BySupervisor?
    requires ChildrenFrom(Src(s), registry) && BootedFrom(Src(s), prints) && RetriesFrom(Src(s), s.retries)
    ensures var src := Handed(Src(s), h, BySupervisor(s.next));
      ChildrenFrom(src, registry) && BootedFrom(src, prints) && RetriesFrom(src, s.retries)
  {
  }

  // ------------------------------------------------------------------ the gather

  lemma HeldChildBuilt(s: State, n: Name)
    requires Ownership(s.owned, s.closes, s.lost) && Below(s.closes, s.next)
    requires HeldFrom(s) && ChildBuiltOk(s, n)
    ensures HeldFrom(ChildBuilt(s, n))
  {
    SrcNew(s.owned, s.closes, s.lost, s.origin, ByChild(n), s.next, EntryOf(Reading(s.control, s.prints), n));
  }

  lemma HeldChildAttach(s: State, n: Name)
    requires HeldFrom(s) && ChildHolds(s, n)
    ensures HeldFrom(ChildAttach(s, n))
  {
    SrcPass(s.owned, s.origin, ByChild(n), InBuilt(n));
  }

  lemma HeldAttach(s: State, e: AttachEvent)
    requires Owned(s) && Holds(s) && Slotted(s) && Waited(s) && Tasks(s) && Names(s)
    requires HeldFrom(s) && AttachOk(s, e)
    ensures HeldFrom(AttachStep(s, e))
  {
    match e
    case DoChildBuilt(n) => HeldChildBuilt(s, n);
    case DoChildRefuse(n, _) => SrcClose(s.owned, s.origin, ByChild(n));
    case DoChildAttach(n) => HeldChildAttach(s, n);
    case _ =>
  }

  lemma TriedAttach(s: State, e: AttachEvent)
    requires Slotted(s) && Tasks(s) && Names(s) && Shown(s)
    requires Tried(s) && AttachOk(s, e)
    ensures Tried(AttachStep(s, e))
  {
  }

  lemma ServedAttach(s: State, e: AttachEvent)
    requires Owned(s) && Slotted(s) && Waited(s) && Tasks(s) && Names(s)
    requires Served(s) && AttachOk(s, e)
    ensures Served(AttachStep(s, e))
  {
    match e
    case DoChildBuilt(n) =>
      SrcNew(s.owned, s.closes, s.lost, s.origin, ByChild(n), s.next, EntryOf(Reading(s.control, s.prints), n));
    case DoChildRefuse(n, _) => SrcClose(s.owned, s.origin, ByChild(n));
    case DoChildAttach(n) => SrcPass(s.owned, s.origin, ByChild(n), InBuilt(n));
    case _ =>
  }

  // ------------------------------------------------------------------ supervisors

  lemma HeldSupClose(s: State, i: Id)
    requires HeldFrom(s) && Live(s, i)
    ensures HeldFrom(SupClose(s, i))
  {
    SrcClose(s.owned, s.origin, BySupervisor(i));
  }

  lemma HeldSupDies(s: State, i: Id)
    requires Owned(s) && Holds(s) && Slotted(s) && Waited(s) && Tasks(s) && Names(s)
    requires HeldFrom(s) && SupDiesOk(s, i)
    ensures HeldFrom(SupDies(s, i))
  {
    SrcClose(s.owned, s.origin, BySupervisor(i));
  }

  lemma HeldSup(s: State, e: SupEvent)
    requires Owned(s) && Holds(s) && Slotted(s) && Waited(s) && Tasks(s) && Names(s)
    requires HeldFrom(s) && SupOk(s, e)
    ensures HeldFrom(SupStep(s, e))
  {
    match e
    case DoSupFails(i) => HeldSupClose(s, i);
    case DoSupEnd(i, _) => HeldSupClose(s, i);
    case DoSupDies(i) => HeldSupDies(s, i);
    case _ =>
  }

  lemma TriedSup(s: State, e: SupEvent)
    requires Slotted(s) && Tasks(s) && Names(s) && Shown(s)
    requires Tried(s) && SupOk(s, e) && InForce(s.control)
    ensures Tried(SupStep(s, e))
  {
  }

  lemma ServedSup(s: State, e: SupEvent)
    requires Owned(s) && Slotted(s) && Waited(s) && Tasks(s) && Names(s)
    requires Served(s) && SupOk(s, e) && InForce(s.control)
    ensures Served(SupStep(s, e))
  {
    match e
    case DoSupFails(i) => SrcClose(s.owned, s.origin, BySupervisor(i));
    case DoSupEnd(i, _) => SrcClose(s.owned, s.origin, BySupervisor(i));
    case DoSupDies(i) => SrcClose(s.owned, s.origin, BySupervisor(i));
    case _ =>
  }

  // ------------------------------------------------------------------ retries

  lemma HeldRetryBuilt(s: State, t: Id)
    requires Ownership(s.owned, s.closes, s.lost) && Below(s.closes, s.next)
    requires HeldFrom(s) && RetryBuiltOk(s, t)
    ensures HeldFrom(RetryBuilt(s, t))
  {
    SrcNew(s.owned, s.closes, s.lost, s.origin, ByRetry(t), s.next, s.retries[t].entry);
  }

  lemma HeldRetryInstall(s: State, t: Id)
    requires Owned(s) && Holds(s) && Slotted(s) && Waited(s) && Tasks(s) && Names(s)
    requires HeldFrom(s) && RetryHolds(s, t)
    ensures HeldFrom(RetryInstall(s, t))
  {
    HandedToNew(s, ByRetry(t), s.prints, Reading(s.control, s.prints));
    SrcPass(s.owned, s.origin, ByRetry(t), BySupervisor(s.next));
  }

  lemma HeldRetryGoes(s: State, t: Id)
    requires HeldFrom(s) && t in s.retries
    ensures HeldFrom(RetryEnds(s, t))
    ensures forall fault :: HeldFrom(RetryRefuse(s, t, fault))
  {
    SrcClose(s.owned, s.origin, ByRetry(t));
  }

  lemma HeldRetryInstalled(s: State, t: Id)
    requires Owned(s) && Holds(s) && Slotted(s) && Waited(s) && Tasks(s) && Names(s)
    requires HeldFrom(s) && RetryInstalledOk(s, t)
    ensures HeldFrom(RetryInstalled(s, t))
  {
  }

  lemma HeldRetryMoves(s: State, e: RetryEvent)
    requires HeldFrom(s) && RetryOk(s, e)
    requires e.DoRetryWake? || e.DoRetryFail? || e.DoRetryFault? || e.DoRetryInstallFailed? || e.DoRetryUnwind?
    ensures HeldFrom(RetryStep(s, e))
  {
  }

  lemma HeldRetry(s: State, e: RetryEvent)
    requires Owned(s) && Holds(s) && Slotted(s) && Waited(s) && Tasks(s) && Names(s)
    requires HeldFrom(s) && RetryOk(s, e)
    ensures HeldFrom(RetryStep(s, e))
  {
    match e
    case DoRetryBuilt(t) => HeldRetryBuilt(s, t);
    case DoRetryInstall(t) => HeldRetryInstall(s, t);
    case DoRetryRefuse(t, _) => HeldRetryGoes(s, t);
    case DoRetryEnds(t) => HeldRetryGoes(s, t);
    case DoRetryInstalled(t) => HeldRetryInstalled(s, t);
    case _ => HeldRetryMoves(s, e);
  }

  lemma TriedRetry(s: State, e: RetryEvent)
    requires Slotted(s) && Tasks(s) && Names(s) && Shown(s)
    requires Tried(s) && RetryOk(s, e)
    ensures Tried(RetryStep(s, e))
  {
  }

  lemma ServedRetryInstalled(s: State, t: Id)
    requires Owned(s) && Slotted(s) && Waited(s) && Tasks(s) && Names(s)
    requires HeldFrom(s) && Tried(s) && Served(s) && RetryInstalledOk(s, t)
    ensures Served(RetryInstalled(s, t))
  {
  }

  lemma ServedRetryInstall(s: State, t: Id)
    requires Owned(s) && Slotted(s) && Waited(s) && Tasks(s) && Names(s)
    requires Served(s) && RetryHolds(s, t)
    ensures Served(RetryInstall(s, t))
  {
    SrcPass(s.owned, s.origin, ByRetry(t), BySupervisor(s.next));
    SupsAreOld(s);
  }

  lemma ServedRetryBuilt(s: State, t: Id)
    requires Owned(s) && Served(s) && RetryBuiltOk(s, t)
    ensures Served(RetryBuilt(s, t))
  {
    SrcNew(s.owned, s.closes, s.lost, s.origin, ByRetry(t), s.next, s.retries[t].entry);
  }

  lemma ServedRetryGoes(s: State, t: Id)
    requires Served(s) && t in s.retries
    ensures Served(RetryEnds(s, t))
    ensures forall fault :: Served(RetryRefuse(s, t, fault))
  {
    SrcClose(s.owned, s.origin, ByRetry(t));
  }

  lemma ServedRetry(s: State, e: RetryEvent)
    requires Owned(s) && Slotted(s) && Waited(s) && Tasks(s) && Names(s)
    requires HeldFrom(s) && Tried(s) && Served(s) && RetryOk(s, e) && InForce(s.control)
    ensures Served(RetryStep(s, e))
  {
    match e
    case DoRetryBuilt(t) => ServedRetryBuilt(s, t);
    case DoRetryInstall(t) => ServedRetryInstall(s, t);
    case DoRetryInstalled(t) => ServedRetryInstalled(s, t);
    case DoRetryRefuse(t, _) => ServedRetryGoes(s, t);
    case DoRetryEnds(t) => ServedRetryGoes(s, t);
    case _ =>
  }

  // ------------------------------------------------------------------ reload

  lemma NothingHeldApart(s: State)
    requires Holds(s) && s.children == map[]
    ensures forall n :: ByChild(n) !in s.owned && InBuilt(n) !in s.owned
  {
  }

  lemma HeldReloadBegin(s: State, incoming: map<Name, string>)
    requires Owned(s) && Holds(s) && Slotted(s) && Waited(s) && Tasks(s) && Names(s)
    requires HeldFrom(s) && Reloadable(s)
    ensures HeldFrom(ReloadBegin(s, incoming))
  {
    NothingHeldApart(s);
  }

  lemma HeldReloadDone(s: State)
    requires Owned(s) && Holds(s) && Slotted(s) && Waited(s) && Tasks(s) && Names(s)
    requires HeldFrom(s) && ReloadDoneOk(s)
    ensures HeldFrom(ReloadDone(s))
  {
    NothingHeldApart(s);
  }

  lemma HeldReloadInstall(s: State, n: Name)
    requires Below(s.supervisors, s.next) && TasksStart(s.retries, s.supervisors)
    requires ChildrenHold(s.owned, s.children)
    requires HeldFrom(s) && ReloadInstallOk(s, n)
    ensures HeldFrom(ReloadInstall(s, n))
  {
    assert InBuilt(n) in s.owned;
    HandedToNew(s, InBuilt(n), s.prints, s.control.incoming);
    SrcPass(s.owned, s.origin, InBuilt(n), BySupervisor(s.next));
    CancelSources(Handed(Src(s), InBuilt(n), BySupervisor(s.next)), s.retries, SlotOf(s, n).retry);
  }

  lemma CancelSources(src: map<Holder, string>, retries: map<Id, Retry>, t: Option<Id>)
    requires RetriesFrom(src, retries)
    ensures RetriesFrom(src, CancelTask(retries, t))
  {
  }

  lemma SpawnSources(src: map<Holder, string>, owned: map<Holder, Id>, retries: map<Id, Retry>, all: map<Id, Retry>,
                     t: Id, k: Id, entry: string)
    requires RetriesFrom(src, retries) && src.Keys == owned.Keys
    requires RetriesHold(owned, all) && t !in all
    ensures RetriesFrom(src, retries[t := Retry(k, Sleeping, false, entry)])
  {
    assert ByRetry(t) !in owned.Keys;
    assert ByRetry(t) !in src;
  }

  lemma HeldReloadAttachFailed(s: State, n: Name)
    requires Below(s.retries, s.next) && RetriesHold(s.owned, s.retries)
    requires HeldFrom(s) && ReloadAttachFailedOk(s, n)
    ensures HeldFrom(ReloadAttachFailed(s, n))
  {
    var cancelled := CancelTask(s.retries, SlotOf(s, n).retry);
    CancelSources(Src(s), s.retries, SlotOf(s, n).retry);
    SpawnSources(Src(s), s.owned, cancelled, s.retries, s.next, s.table[n], EntryOf(s.control.incoming, n));
  }

  lemma HeldReloadInstallFailed(s: State, fault: bool)
    requires Below(s.retries, s.next) && RetriesHold(s.owned, s.retries)
    requires HeldFrom(s) && ReloadInstallFailedOk(s)
    ensures HeldFrom(ReloadInstallFailed(s, fault))
  {
    var n := s.control.cur.value.name;
    SpawnSources(Src(s), s.owned, s.retries, s.retries, s.next, s.table[n], EntryOf(s.control.incoming, n));
  }

  lemma HeldReloadMoves(s: State, e: ReloadEvent)
    requires HeldFrom(s) && ReloadOk(s, e)
    requires e.DoReloadRefused? || e.DoReloadGathered? || e.DoReloadPut? || e.DoReloadInstalled? || e.DoReloadRemove?
    ensures HeldFrom(ReloadStep(s, e))
  {
  }

  lemma HeldReload(s: State, e: ReloadEvent)
    requires Owned(s) && Holds(s) && Slotted(s) && Waited(s) && Tasks(s) && Names(s)
    requires HeldFrom(s) && ReloadOk(s, e)
    ensures HeldFrom(ReloadStep(s, e))
  {
    match e
    case DoReloadBegin(incoming) => HeldReloadBegin(s, incoming);
    case DoReloadDone => HeldReloadDone(s);
    case DoReloadInstall(n) => HeldReloadInstall(s, n);
    case DoReloadAttachFailed(n) => HeldReloadAttachFailed(s, n);
    case DoReloadInstallFailed(fault) => HeldReloadInstallFailed(s, fault);
    case _ => HeldReloadMoves(s, e);
  }

  lemma TriedReloadInstall(s: State, n: Name)
    requires Slotted(s) && Tasks(s) && Names(s) && Shown(s)
    requires Tried(s) && ReloadInstallOk(s, n)
    ensures Tried(ReloadInstall(s, n))
  {
  }

  lemma TriedReloadAttachFailed(s: State, n: Name)
    requires Slotted(s) && Tasks(s) && Names(s) && Shown(s)
    requires Tried(s) && ReloadAttachFailedOk(s, n)
    ensures Tried(ReloadAttachFailed(s, n))
  {
  }

  lemma TriedReloadInstallFailed(s: State, fault: bool)
    requires Slotted(s) && Tasks(s) && Names(s) && Shown(s)
    requires Tried(s) && ReloadInstallFailedOk(s)
    ensures Tried(ReloadInstallFailed(s, fault))
  {
  }

  lemma TriedReloadTurns(s: State, e: ReloadEvent)
    requires Slotted(s) && Tasks(s) && Names(s) && Shown(s)
    requires Tried(s) && ReloadOk(s, e)
    requires e.DoReloadBegin? || e.DoReloadGathered? || e.DoReloadDone?
    ensures Tried(ReloadStep(s, e))
  {
  }

  lemma TriedReload(s: State, e: ReloadEvent)
    requires Slotted(s) && Tasks(s) && Names(s) && Shown(s)
    requires Tried(s) && ReloadOk(s, e)
    ensures Tried(ReloadStep(s, e))
  {
    match e
    case DoReloadInstall(n) => TriedReloadInstall(s, n);
    case DoReloadAttachFailed(n) => TriedReloadAttachFailed(s, n);
    case DoReloadInstallFailed(fault) => TriedReloadInstallFailed(s, fault);
    case DoReloadBegin(_) => TriedReloadTurns(s, e);
    case DoReloadGathered => TriedReloadTurns(s, e);
    case DoReloadDone => TriedReloadTurns(s, e);
    case _ =>
  }

  lemma ServedReloadInstall(s: State, n: Name)
    requires Slotted(s) && Served(s) && ReloadInstallOk(s, n)
    ensures Served(ReloadInstall(s, n))
  {
    SrcPass(s.owned, s.origin, InBuilt(n), BySupervisor(s.next));
    SupsAreOld(s);
  }

  lemma ServedReloadAttachFailed(s: State, n: Name)
    requires Owned(s) && Slotted(s) && Waited(s) && Tasks(s) && Names(s)
    requires Served(s) && ReloadAttachFailedOk(s, n)
    ensures Served(ReloadAttachFailed(s, n))
  {
  }

  lemma ServedReloadInstalled(s: State)
    requires Owned(s) && Slotted(s) && Waited(s) && Tasks(s) && Names(s)
    requires HeldFrom(s) && Served(s) && ReloadInstalledOk(s)
    ensures Served(ReloadInstalled(s))
  {
  }

  lemma ServedReloadInstallFailed(s: State, fault: bool)
    requires Owned(s) && Slotted(s) && Waited(s) && Tasks(s) && Names(s)
    requires Served(s) && ReloadInstallFailedOk(s)
    ensures Served(ReloadInstallFailed(s, fault))
  {
  }

  lemma ServedReloadRemove(s: State, n: Name)
    requires Owned(s) && Slotted(s) && Waited(s) && Tasks(s) && Names(s)
    requires Served(s) && ReloadRemoveOk(s, n)
    ensures Served(ReloadRemove(s, n))
  {
  }

  lemma ServedReloadPut(s: State, n: Name)
    requires Owned(s) && Slotted(s) && Waited(s) && Tasks(s) && Names(s)
    requires Served(s) && ReloadPutOk(s, n)
    ensures Served(ReloadPut(s, n))
  {
  }

  lemma ServedReloadTurns(s: State, e: ReloadEvent)
    requires Owned(s) && Slotted(s) && Waited(s) && Tasks(s) && Names(s)
    requires Served(s) && ReloadOk(s, e)
    requires e.DoReloadBegin? || e.DoReloadGathered? || e.DoReloadDone?
    ensures Served(ReloadStep(s, e))
  {
  }

  lemma ServedReload(s: State, e: ReloadEvent)
    requires Owned(s) && Slotted(s) && Waited(s) && Tasks(s) && Names(s)
    requires HeldFrom(s) && Served(s) && ReloadOk(s, e)
    ensures Served(ReloadStep(s, e))
  {
    match e
    case DoReloadInstall(n) => ServedReloadInstall(s, n);
    case DoReloadAttachFailed(n) => ServedReloadAttachFailed(s, n);
    case DoReloadInstalled => ServedReloadInstalled(s);
    case DoReloadInstallFailed(fault) => ServedReloadInstallFailed(s, fault);
    case DoReloadRemove(n) => ServedReloadRemove(s, n);
    case DoReloadPut(n) => ServedReloadPut(s, n);
    case DoReloadRefused =>
    case _ => ServedReloadTurns(s, e);
  }

  // ------------------------------------------------------------------ over every run

  lemma StopEndsIt(s: State, e: StopEvent)
    requires StopOk(s, e)
    ensures !InForce(StopStep(s, e).control)
  {
  }

  lemma BootInForce(s: State, e: BootEvent)
    requires BootOk(s, e)
    ensures InForce(s.control)
  {
  }

  lemma AttachInForce(s: State, e: AttachEvent)
    requires AttachOk(s, e)
    ensures InForce(s.control)
  {
  }

  lemma SupStays(s: State, e: SupEvent)
    requires SupOk(s, e)
    ensures SupStep(s, e).control == s.control
  {
  }

  lemma RetryStays(s: State, e: RetryEvent)
    requires RetryOk(s, e)
    ensures RetryStep(s, e).control == s.control
  {
  }

  lemma ReloadInForce(s: State, e: ReloadEvent)
    requires ReloadOk(s, e)
    ensures InForce(s.control)
  {
  }

  lemma OnlyFromForce(s: State, e: Event)
    requires Enabled(s, e) && InForce(Step(s, e).control)
    ensures InForce(s.control)
  {
    match e
    case OfBoot(x) => BootInForce(s, x);
    case OfAttach(x) => AttachInForce(s, x);
    case OfSup(x) => SupStays(s, x);
    case OfRetry(x) => RetryStays(s, x);
    case OfReload(x) => ReloadInForce(s, x);
    case OfStop(x) => StopEndsIt(s, x);
  }

  lemma SourcedStep(s: State, e: Event)
    requires Inv(s) && Sourced(s) && Enabled(s, e)
    ensures Sourced(Step(s, e))
  {
    if InForce(Step(s, e).control) {
      OnlyFromForce(s, e);
      match e
      case OfBoot(x) => HeldBoot(s, x); TriedBoot(s, x); ServedBoot(s, x);
      case OfAttach(x) => HeldAttach(s, x); TriedAttach(s, x); ServedAttach(s, x);
      case OfSup(x) => HeldSup(s, x); TriedSup(s, x); ServedSup(s, x);
      case OfRetry(x) => HeldRetry(s, x); TriedRetry(s, x); ServedRetry(s, x);
      case OfReload(x) => HeldReload(s, x); TriedReload(s, x); ServedReload(s, x);
      case OfStop(x) => StopEndsIt(s, x);
    }
  }

  lemma {:induction false} SourcedRun(prints: map<Name, string>, es: seq<Event>)
    requires Legal(Init(prints), es)
    ensures Sourced(After(Init(prints), es))
    decreases |es|
  {
    if es != [] {
      var n := |es| - 1;
      SourcedRun(prints, es[..n]);
      ReachedInv(prints, es[..n], After(Init(prints), es[..n]));
      SourcedStep(After(Init(prints), es[..n]), es[n]);
    }
  }

  /** The entry the app of a surface was attached from. */
  function ServedEntry(s: State, n: Name): Option<string>
    requires HasSlot(s, n)
  {
    var sl := SlotOf(s, n);
    if sl.app.Some? && BySupervisor(sl.app.value) in s.owned && s.owned[BySupervisor(sl.app.value)] in s.origin
    then Some(s.origin[s.owned[BySupervisor(sl.app.value)]]) else None
  }

  ghost predicate Recorded(s: State) { s.origin.Keys == s.closes.Keys }

  lemma RecordedBoot(s: State, e: BootEvent)
    requires Recorded(s) && BootOk(s, e)
    ensures Recorded(BootStep(s, e))
  {
  }

  lemma RecordedAttach(s: State, e: AttachEvent)
    requires Recorded(s) && AttachOk(s, e)
    ensures Recorded(AttachStep(s, e))
  {
  }

  lemma RecordedSup(s: State, e: SupEvent)
    requires Recorded(s) && SupOk(s, e)
    ensures Recorded(SupStep(s, e))
  {
  }

  lemma RecordedRetry(s: State, e: RetryEvent)
    requires Recorded(s) && RetryOk(s, e)
    ensures Recorded(RetryStep(s, e))
  {
  }

  lemma RecordedReload(s: State, e: ReloadEvent)
    requires Recorded(s) && ReloadOk(s, e)
    ensures Recorded(ReloadStep(s, e))
  {
  }

  lemma RecordedStop(s: State, e: StopEvent)
    requires Recorded(s) && StopOk(s, e)
    ensures Recorded(StopStep(s, e))
  {
  }

  lemma RecordedStep(s: State, e: Event)
    requires Recorded(s) && Enabled(s, e)
    ensures Recorded(Step(s, e))
  {
    match e
    case OfBoot(x) => RecordedBoot(s, x);
    case OfAttach(x) => RecordedAttach(s, x);
    case OfSup(x) => RecordedSup(s, x);
    case OfRetry(x) => RecordedRetry(s, x);
    case OfReload(x) => RecordedReload(s, x);
    case OfStop(x) => RecordedStop(s, x);
  }

  lemma {:induction false} RecordedRun(prints: map<Name, string>, es: seq<Event>)
    requires Legal(Init(prints), es)
    ensures Recorded(After(Init(prints), es))
    decreases |es|
  {
    if es != [] {
      RecordedRun(prints, es[..|es| - 1]);
      RecordedStep(After(Init(prints), es[..|es| - 1]), es[|es| - 1]);
    }
  }

  lemma ServesSourced(s: State, n: Name)
    requires Inv(s) && Sourced(s) && Recorded(s) && s.control.Running? && HasSlot(s, n)
    requires SlotOf(s, n).app.Some? && n !in s.reloadFailed
    ensures ServedEntry(s, n) == Some(EntryOf(s.prints, n))
  {
    DispatchedIsOpen(s, n);
    var k := s.table[n];
    assert s.slots[k].app == s.slots[k].sup;
    assert BySupervisor(s.slots[k].app.value) in Src(s);
  }

  lemma RetriesSourced(s: State, n: Name)
    requires TableOk(s.table, s.slots) && Tried(s) && s.control.Running? && HasSlot(s, n) && Retrying(s, s.table[n])
    ensures s.retries[SlotOf(s, n).retry.value].entry == EntryOf(s.prints, n)
  {
    var t := SlotOf(s, n).retry.value;
    assert s.slots[s.retries[t].slot].name == n;
  }

  /** Between reloads every serving surface serves the entry in force, unless its reload is marked as
      failed; and whatever is retried is retried with the entry in force. */
  lemma ServesTheEntryInForce(prints: map<Name, string>, es: seq<Event>, s: State, n: Name)
    requires Reached(prints, es, s) && s.control.Running? && n in s.table
    ensures n in s.prints && HasSlot(s, n)
    ensures SlotOf(s, n).app.Some? && n !in s.reloadFailed ==> ServedEntry(s, n) == Some(s.prints[n])
    ensures Retrying(s, s.table[n]) ==> s.retries[SlotOf(s, n).retry.value].entry == s.prints[n]
  {
    ReachedInv(prints, es, s);
    EverySurfaceAccountedFor(prints, es, s);
    SourcedRun(prints, es);
    RecordedRun(prints, es);
    if SlotOf(s, n).app.Some? && n !in s.reloadFailed { ServesSourced(s, n); }
    if Retrying(s, s.table[n]) { RetriesSourced(s, n); }
  }
}
