/** Every step keeps every part of the invariant.  A lemma is named after the part and the step
    (or, where the steps of one actor need nothing further, the actor). */
module RuntimeSteps {
  import opened Wrappers
  import opened RuntimeState
  import opened RuntimeInvariant
  import opened RuntimeEvents

  // ------------------------------------------------------------------ Backends: one holder or one close.

  lemma OwnedBoot(s: State, e: BootEvent)
    requires Owned(s) && Holds(s) && Below(s.supervisors, s.next) && BootOk(s, e)
    ensures Owned(BootStep(s, e))
  {
    match e
    case DoBootOne(n) => PassOwns(s.owned, s.closes, s.lost, InBuilt(n), InBooted(n));
    case DoStartInstall(n) => PassOwns(s.owned, s.closes, s.lost, InBooted(n), BySupervisor(s.next));
    case _ =>
  }

  lemma OwnedAttach(s: State, e: AttachEvent)
    requires Owned(s) && Holds(s) && Below(s.supervisors, s.next) && AttachOk(s, e)
    ensures Owned(AttachStep(s, e))
  {
    match e
    case DoChildBuilt(n) => NewBackendOwns(s.owned, s.closes, s.lost, ByChild(n), s.next);
    case DoChildRefuse(n, fault) => CloseOwns(s.owned, s.closes, s.lost, ByChild(n));
    case DoChildAttach(n) => PassOwns(s.owned, s.closes, s.lost, ByChild(n), InBuilt(n));
    case _ =>
  }

  lemma OwnedSup(s: State, e: SupEvent)
    requires Owned(s) && Holds(s) && Below(s.supervisors, s.next) && SupOk(s, e)
    ensures Owned(SupStep(s, e))
  {
    match e
    case DoSupFails(i) => CloseOwns(s.owned, s.closes, s.lost, BySupervisor(i));
    case DoSupEnd(i, why) => CloseOwns(s.owned, s.closes, s.lost, BySupervisor(i));
    case DoSupDies(i) => CloseOwns(s.owned, s.closes, s.lost, BySupervisor(i));
    case _ =>
  }

  lemma OwnedRetry(s: State, e: RetryEvent)
    requires Owned(s) && Holds(s) && Below(s.supervisors, s.next) && RetryOk(s, e)
    ensures Owned(RetryStep(s, e))
  {
    match e
    case DoRetryBuilt(t) => NewBackendOwns(s.owned, s.closes, s.lost, ByRetry(t), s.next);
    case DoRetryRefuse(t, fault) => CloseOwns(s.owned, s.closes, s.lost, ByRetry(t));
    case DoRetryInstall(t) => PassOwns(s.owned, s.closes, s.lost, ByRetry(t), BySupervisor(s.next));
    case DoRetryEnds(t) => CloseOwns(s.owned, s.closes, s.lost, ByRetry(t));
    case _ =>
  }

  lemma OwnedReload(s: State, e: ReloadEvent)
    requires Owned(s) && Holds(s) && Below(s.supervisors, s.next) && ReloadOk(s, e)
    ensures Owned(ReloadStep(s, e))
  {
    match e
    case DoReloadInstall(n) => PassOwns(s.owned, s.closes, s.lost, InBuilt(n), BySupervisor(s.next));
    case _ =>
  }

  lemma OwnedStop(s: State, e: StopEvent)
    requires Owned(s) && Holds(s) && Below(s.supervisors, s.next) && StopOk(s, e)
    ensures Owned(StopStep(s, e))
  {
    match e
    case DoBootCancel => LoseOwns(s.owned, s.closes, s.lost);
    case DoAbortChild(n) => CloseOwns(s.owned, s.closes, s.lost, ByChild(n));
    case DoAbortClose(n) => CloseOwns(s.owned, s.closes, s.lost, InBuilt(n));
    case DoCloseBooted(n) => CloseOwns(s.owned, s.closes, s.lost, InBooted(n));
    case _ =>
  }

  // ------------------------------------------------------------------ The ledger agrees with the tables.

  lemma HoldsBootOne(s: State, n: Name)
    requires Holds(s) && Below(s.supervisors, s.next) && Below(s.retries, s.next) && Names(s) && BootOneOk(s, n)
    ensures Holds(BootOne(s, n))
  {
  }

  lemma HoldsBoot(s: State, e: BootEvent)
    requires Holds(s) && Below(s.supervisors, s.next) && Below(s.retries, s.next) && Names(s) && BootOk(s, e)
    ensures Holds(BootStep(s, e))
  {
    match e
    case DoBootOne(n) => HoldsBootOne(s, n);
    case _ =>
  }

  lemma HoldsChildBuilt(s: State, n: Name)
    requires Holds(s) && Below(s.supervisors, s.next) && Below(s.retries, s.next) && Names(s) && ChildBuiltOk(s, n)
    ensures Holds(ChildBuilt(s, n))
  {
  }

  lemma HoldsChildAttach(s: State, n: Name)
    requires Holds(s) && Below(s.supervisors, s.next) && Below(s.retries, s.next) && Names(s) && ChildHolds(s, n)
    ensures Holds(ChildAttach(s, n))
  {
  }

  lemma HoldsAttach(s: State, e: AttachEvent)
    requires Holds(s) && Below(s.supervisors, s.next) && Below(s.retries, s.next) && Names(s) && AttachOk(s, e)
    ensures Holds(AttachStep(s, e))
  {
    match e
    case DoChildBuilt(n) => HoldsChildBuilt(s, n);
    case DoChildAttach(n) => HoldsChildAttach(s, n);
    case _ =>
  }

  lemma HoldsSup(s: State, e: SupEvent)
    requires Holds(s) && Below(s.supervisors, s.next) && Below(s.retries, s.next) && Names(s) && SupOk(s, e)
    ensures Holds(SupStep(s, e))
  {
  }

  lemma HoldsRetryBuilt(s: State, t: Id)
    requires Holds(s) && Below(s.supervisors, s.next) && Below(s.retries, s.next) && Names(s) && RetryBuiltOk(s, t)
    ensures Holds(RetryBuilt(s, t))
  {
  }

  lemma HoldsRetryRefuse(s: State, t: Id, fault: bool)
    requires Holds(s) && Below(s.supervisors, s.next) && Below(s.retries, s.next) && Names(s) && RetryHolds(s, t)
    ensures Holds(RetryRefuse(s, t, fault))
  {
  }

  lemma HoldsRetryInstall(s: State, t: Id)
    requires Holds(s) && Below(s.supervisors, s.next) && Below(s.retries, s.next) && Names(s) && RetryHolds(s, t)
    ensures Holds(RetryInstall(s, t))
  {
  }

  lemma HoldsRetry(s: State, e: RetryEvent)
    requires Holds(s) && Below(s.supervisors, s.next) && Below(s.retries, s.next) && Names(s) && RetryOk(s, e)
    ensures Holds(RetryStep(s, e))
  {
    match e
    case DoRetryBuilt(t) => HoldsRetryBuilt(s, t);
    case DoRetryRefuse(t, fault) => HoldsRetryRefuse(s, t, fault);
    case DoRetryInstall(t) => HoldsRetryInstall(s, t);
    case _ =>
  }

  lemma HoldsReloadInstall(s: State, n: Name)
    requires Holds(s) && Below(s.supervisors, s.next) && Below(s.retries, s.next) && Names(s) && ReloadInstallOk(s, n)
    ensures Holds(ReloadInstall(s, n))
  {
  }

  lemma HoldsReloadAttachFailed(s: State, n: Name)
    requires Holds(s) && Below(s.supervisors, s.next) && Below(s.retries, s.next) && Names(s)
    requires ReloadAttachFailedOk(s, n)
    ensures Holds(ReloadAttachFailed(s, n))
  {
  }

  lemma HoldsReloadRemove(s: State, n: Name)
    requires Holds(s) && Below(s.supervisors, s.next) && Below(s.retries, s.next) && Names(s) && ReloadRemoveOk(s, n)
    ensures Holds(ReloadRemove(s, n))
  {
  }

  lemma HoldsReload(s: State, e: ReloadEvent)
    requires Holds(s) && Below(s.supervisors, s.next) && Below(s.retries, s.next) && Names(s) && ReloadOk(s, e)
    ensures Holds(ReloadStep(s, e))
  {
    match e
    case DoReloadInstall(n) => HoldsReloadInstall(s, n);
    case DoReloadAttachFailed(n) => HoldsReloadAttachFailed(s, n);
    case DoReloadRemove(n) => HoldsReloadRemove(s, n);
    case _ =>
  }

  lemma HoldsBootCancel(s: State)
    requires Holds(s) && BootCancelOk(s)
    ensures Holds(BootCancel(s))
  {
  }

  lemma HoldsAbortChild(s: State, n: Name)
    requires Holds(s) && AbortChildOk(s, n)
    ensures Holds(AbortChild(s, n))
  {
  }

  lemma HoldsAbortClose(s: State, n: Name)
    requires Holds(s) && AbortCloseOk(s, n)
    ensures Holds(AbortClose(s, n))
  {
  }

  lemma HoldsStop(s: State, e: StopEvent)
    requires Holds(s) && Below(s.supervisors, s.next) && Below(s.retries, s.next) && Names(s) && StopOk(s, e)
    ensures Holds(StopStep(s, e))
  {
    match e
    case DoBootCancel => HoldsBootCancel(s);
    case DoAbortChild(n) => HoldsAbortChild(s, n);
    case DoAbortClose(n) => HoldsAbortClose(s, n);
    case _ =>
  }

  // ------------------------------------------------------------------ Supervisors and slots agree.

  lemma SlottedBootOne(s: State, n: Name)
    requires Slotted(s) && CurrentOk(s.control, s.table, s.supervisors) && TasksPlaced(s.table, s.slots, s.retries)
    requires TasksStart(s.retries, s.supervisors) && BootOneOk(s, n)
    ensures Slotted(BootOne(s, n))
  {
  }

  lemma SlottedStartInstalled(s: State)
    requires Slotted(s) && CurrentOk(s.control, s.table, s.supervisors) && TasksPlaced(s.table, s.slots, s.retries)
    requires TasksStart(s.retries, s.supervisors) && StartInstalledOk(s)
    ensures Slotted(StartInstalled(s))
  {
  }

  lemma SlottedStartRetry(s: State, n: Name)
    requires Slotted(s) && CurrentOk(s.control, s.table, s.supervisors) && TasksPlaced(s.table, s.slots, s.retries)
    requires TasksStart(s.retries, s.supervisors) && StartRetryOk(s, n)
    ensures Slotted(StartRetry(s, n))
  {
  }

  lemma SlottedBoot(s: State, e: BootEvent)
    requires Slotted(s) && CurrentOk(s.control, s.table, s.supervisors) && TasksPlaced(s.table, s.slots, s.retries)
    requires TasksStart(s.retries, s.supervisors) && BootOk(s, e)
    ensures Slotted(BootStep(s, e))
  {
    match e
    case DoBootOne(n) => SlottedBootOne(s, n);
    case DoStartInstalled => SlottedStartInstalled(s);
    case DoStartRetry(n) => SlottedStartRetry(s, n);
    case _ =>
  }

  lemma SlottedAttach(s: State, e: AttachEvent)
    requires Slotted(s) && CurrentOk(s.control, s.table, s.supervisors) && TasksPlaced(s.table, s.slots, s.retries)
    requires TasksStart(s.retries, s.supervisors) && AttachOk(s, e)
    ensures Slotted(AttachStep(s, e))
  {
  }

  lemma SlottedSupEnd(s: State, i: Id, why: EndReason)
    requires Slotted(s) && CurrentOk(s.control, s.table, s.supervisors) && TasksPlaced(s.table, s.slots, s.retries)
    requires TasksStart(s.retries, s.supervisors) && SupEndOk(s, i, why)
    ensures Slotted(SupClose(s, i))
  {
  }

  lemma SlottedSupDies(s: State, i: Id)
    requires Slotted(s) && CurrentOk(s.control, s.table, s.supervisors) && TasksPlaced(s.table, s.slots, s.retries)
    requires TasksStart(s.retries, s.supervisors) && SupDiesOk(s, i)
    ensures Slotted(SupDies(s, i))
  {
  }

  lemma SlottedRequest(s: State, n: Name)
    requires Slotted(s) && CurrentOk(s.control, s.table, s.supervisors) && TasksPlaced(s.table, s.slots, s.retries)
    requires TasksStart(s.retries, s.supervisors) && RequestOk(s, n)
    ensures Slotted(Request(s, n))
  {
    assert Listed(s.table, s.slots, s.table[n]);
  }

  lemma SlottedSup(s: State, e: SupEvent)
    requires Slotted(s) && CurrentOk(s.control, s.table, s.supervisors) && TasksPlaced(s.table, s.slots, s.retries)
    requires TasksStart(s.retries, s.supervisors) && SupOk(s, e)
    ensures Slotted(SupStep(s, e))
  {
    match e
    case DoSupEnd(i, why) => SlottedSupEnd(s, i, why);
    case DoSupDies(i) => SlottedSupDies(s, i);
    case DoRequest(n) => SlottedRequest(s, n);
    case _ =>
  }

  lemma SlottedRetryFault(s: State, t: Id)
    requires Slotted(s) && CurrentOk(s.control, s.table, s.supervisors) && TasksPlaced(s.table, s.slots, s.retries)
    requires TasksStart(s.retries, s.supervisors) && RetryFaultOk(s, t)
    ensures Slotted(RetryFault(s, t))
  {
  }

  lemma SlottedRetryInstalled(s: State, t: Id)
    requires Slotted(s) && CurrentOk(s.control, s.table, s.supervisors) && TasksPlaced(s.table, s.slots, s.retries)
    requires TasksStart(s.retries, s.supervisors) && RetryInstalledOk(s, t)
    ensures Slotted(RetryInstalled(s, t))
  {
  }

  lemma SlottedRetry(s: State, e: RetryEvent)
    requires Slotted(s) && CurrentOk(s.control, s.table, s.supervisors) && TasksPlaced(s.table, s.slots, s.retries)
    requires TasksStart(s.retries, s.supervisors) && RetryOk(s, e)
    ensures Slotted(RetryStep(s, e))
  {
    match e
    case DoRetryFault(t) => SlottedRetryFault(s, t);
    case DoRetryInstalled(t) => SlottedRetryInstalled(s, t);
    case _ =>
  }

  lemma SlottedReloadPut(s: State, n: Name)
    requires Slotted(s) && CurrentOk(s.control, s.table, s.supervisors) && TasksPlaced(s.table, s.slots, s.retries)
    requires TasksStart(s.retries, s.supervisors) && ReloadPutOk(s, n)
    ensures Slotted(ReloadPut(s, n))
  {
  }

  lemma SlottedReloadInstall(s: State, n: Name)
    requires Slotted(s) && CurrentOk(s.control, s.table, s.supervisors) && TasksPlaced(s.table, s.slots, s.retries)
    requires TasksStart(s.retries, s.supervisors) && ReloadInstallOk(s, n)
    ensures Slotted(ReloadInstall(s, n))
  {
  }

  lemma SlottedReloadInstalled(s: State)
    requires Slotted(s) && CurrentOk(s.control, s.table, s.supervisors) && TasksPlaced(s.table, s.slots, s.retries)
    requires TasksStart(s.retries, s.supervisors) && ReloadInstalledOk(s)
    ensures Slotted(ReloadInstalled(s))
  {
  }

  lemma SlottedReloadInstallFailed(s: State, fault: bool)
    requires Slotted(s) && CurrentOk(s.control, s.table, s.supervisors) && TasksPlaced(s.table, s.slots, s.retries)
    requires TasksStart(s.retries, s.supervisors) && ReloadInstallFailedOk(s)
    ensures Slotted(ReloadInstallFailed(s, fault))
  {
  }

  lemma SlottedReloadRemove(s: State, n: Name)
    requires Slotted(s) && CurrentOk(s.control, s.table, s.supervisors) && TasksPlaced(s.table, s.slots, s.retries)
    requires TasksStart(s.retries, s.supervisors) && ReloadRemoveOk(s, n)
    ensures Slotted(ReloadRemove(s, n))
  {
  }

  lemma SlottedReload(s: State, e: ReloadEvent)
    requires Slotted(s) && CurrentOk(s.control, s.table, s.supervisors) && TasksPlaced(s.table, s.slots, s.retries)
    requires TasksStart(s.retries, s.supervisors) && ReloadOk(s, e)
    ensures Slotted(ReloadStep(s, e))
  {
    match e
    case DoReloadPut(n) => SlottedReloadPut(s, n);
    case DoReloadInstall(n) => SlottedReloadInstall(s, n);
    case DoReloadInstalled => SlottedReloadInstalled(s);
    case DoReloadInstallFailed(fault) => SlottedReloadInstallFailed(s, fault);
    case DoReloadRemove(n) => SlottedReloadRemove(s, n);
    case _ =>
  }

  lemma SlottedStopAll(s: State)
    requires Slotted(s) && CurrentOk(s.control, s.table, s.supervisors) && TasksPlaced(s.table, s.slots, s.retries)
    requires TasksStart(s.retries, s.supervisors) && StopAllOk(s)
    ensures Slotted(StopAll(s))
  {
  }

  lemma SlottedStop(s: State, e: StopEvent)
    requires Slotted(s) && CurrentOk(s.control, s.table, s.supervisors) && TasksPlaced(s.table, s.slots, s.retries)
    requires TasksStart(s.retries, s.supervisors) && StopOk(s, e)
    ensures Slotted(StopStep(s, e))
  {
    match e
    case DoStopAll => SlottedStopAll(s);
    case _ =>
  }

  // ------------------------------------------------------------------ who waits for a live supervisor

  lemma WaitedStartInstalled(s: State)
    requires Slotted(s) && Waited(s) && Tasks(s) && Holds(s) && StartInstalledOk(s)
    ensures Waited(StartInstalled(s))
  {
  }

  lemma WaitedBoot(s: State, e: BootEvent)
    requires Slotted(s) && Waited(s) && Tasks(s) && Holds(s) && BootOk(s, e)
    ensures Waited(BootStep(s, e))
  {
    match e
    case DoStartInstalled => WaitedStartInstalled(s);
    case _ =>
  }

  lemma WaitedAttach(s: State, e: AttachEvent)
    requires Slotted(s) && Waited(s) && Tasks(s) && Holds(s) && AttachOk(s, e)
    ensures Waited(AttachStep(s, e))
  {
  }

  lemma WaitedSupReady(s: State, i: Id)
    requires Slotted(s) && Waited(s) && Tasks(s) && Holds(s) && SupReadyOk(s, i)
    ensures Waited(SupReady(s, i))
  {
  }

  lemma WaitedSupEnd(s: State, i: Id, why: EndReason)
    requires Slotted(s) && Waited(s) && Tasks(s) && Holds(s) && SupEndOk(s, i, why)
    ensures Waited(SupClose(s, i))
  {
  }

  lemma WaitedRequest(s: State, n: Name)
    requires Slotted(s) && Waited(s) && Tasks(s) && Holds(s) && RequestOk(s, n)
    ensures Waited(Request(s, n))
  {
  }

  lemma WaitedRequestDone(s: State, i: Id)
    requires Slotted(s) && Waited(s) && Tasks(s) && Holds(s) && RequestDoneOk(s, i)
    ensures Waited(RequestDone(s, i))
  {
  }

  lemma WaitedSup(s: State, e: SupEvent)
    requires Slotted(s) && Waited(s) && Tasks(s) && Holds(s) && SupOk(s, e)
    ensures Waited(SupStep(s, e))
  {
    match e
    case DoSupReady(i) => WaitedSupReady(s, i);
    case DoSupEnd(i, why) => WaitedSupEnd(s, i, why);
    case DoRequest(n) => WaitedRequest(s, n);
    case DoRequestDone(i) => WaitedRequestDone(s, i);
    case _ =>
  }

  lemma WaitedRetryInstall(s: State, t: Id)
    requires Slotted(s) && Waited(s) && Tasks(s) && Holds(s) && RetryHolds(s, t)
    ensures Waited(RetryInstall(s, t))
  {
  }

  lemma WaitedRetryInstalled(s: State, t: Id)
    requires Slotted(s) && Waited(s) && Tasks(s) && Holds(s) && RetryInstalledOk(s, t)
    ensures Waited(RetryInstalled(s, t))
  {
  }

  lemma WaitedRetryUnwind(s: State, t: Id)
    requires Slotted(s) && Waited(s) && Tasks(s) && Holds(s) && RetryUnwindOk(s, t)
    ensures Waited(RetryUnwind(s, t))
  {
  }

  lemma WaitedRetryEnds(s: State, t: Id)
    requires Slotted(s) && Waited(s) && Tasks(s) && Holds(s) && RetryEndsOk(s, t)
    ensures Waited(RetryEnds(s, t))
  {
  }

  lemma WaitedRetry(s: State, e: RetryEvent)
    requires Slotted(s) && Waited(s) && Tasks(s) && Holds(s) && RetryOk(s, e)
    ensures Waited(RetryStep(s, e))
  {
    match e
    case DoRetryInstall(t) => WaitedRetryInstall(s, t);
    case DoRetryInstalled(t) => WaitedRetryInstalled(s, t);
    case DoRetryUnwind(t) => WaitedRetryUnwind(s, t);
    case DoRetryEnds(t) => WaitedRetryEnds(s, t);
    case _ =>
  }

  lemma WaitedReloadInstall(s: State, n: Name)
    requires Slotted(s) && Waited(s) && Tasks(s) && Holds(s) && ReloadInstallOk(s, n)
    ensures Waited(ReloadInstall(s, n))
  {
  }

  lemma WaitedReloadAttachFailed(s: State, n: Name)
    requires Slotted(s) && Waited(s) && Tasks(s) && Holds(s) && ReloadAttachFailedOk(s, n)
    ensures Waited(ReloadAttachFailed(s, n))
  {
  }

  lemma WaitedReloadInstalled(s: State)
    requires Slotted(s) && Waited(s) && Tasks(s) && Holds(s) && ReloadInstalledOk(s)
    ensures Waited(ReloadInstalled(s))
  {
  }

  lemma WaitedReloadRemove(s: State, n: Name)
    requires Slotted(s) && Waited(s) && Tasks(s) && Holds(s) && ReloadRemoveOk(s, n)
    ensures Waited(ReloadRemove(s, n))
  {
  }

  lemma WaitedReload(s: State, e: ReloadEvent)
    requires Slotted(s) && Waited(s) && Tasks(s) && Holds(s) && ReloadOk(s, e)
    ensures Waited(ReloadStep(s, e))
  {
    match e
    case DoReloadInstall(n) => WaitedReloadInstall(s, n);
    case DoReloadAttachFailed(n) => WaitedReloadAttachFailed(s, n);
    case DoReloadInstalled => WaitedReloadInstalled(s);
    case DoReloadRemove(n) => WaitedReloadRemove(s, n);
    case _ =>
  }

  lemma WaitedStopAll(s: State)
    requires Slotted(s) && Waited(s) && Tasks(s) && Holds(s) && StopAllOk(s)
    ensures Waited(StopAll(s))
  {
  }

  lemma WaitedStop(s: State, e: StopEvent)
    requires Slotted(s) && Waited(s) && Tasks(s) && Holds(s) && StopOk(s, e)
    ensures Waited(StopStep(s, e))
  {
    match e
    case DoStopAll => WaitedStopAll(s);
    case _ =>
  }

  // ------------------------------------------------------------------ Retry tasks and slots agree.

  lemma TasksStartInstalled(s: State)
    requires Slotted(s) && Waited(s) && Tasks(s) && StartInstalledOk(s)
    ensures Tasks(StartInstalled(s))
  {
  }

  lemma TasksStartRetry(s: State, n: Name)
    requires Slotted(s) && Waited(s) && Tasks(s) && StartRetryOk(s, n)
    ensures Tasks(StartRetry(s, n))
  {
  }

  lemma TasksBoot(s: State, e: BootEvent)
    requires Slotted(s) && Waited(s) && Tasks(s) && BootOk(s, e)
    ensures Tasks(BootStep(s, e))
  {
    match e
    case DoStartInstalled => TasksStartInstalled(s);
    case DoStartRetry(n) => TasksStartRetry(s, n);
    case _ =>
  }

  lemma TasksAttach(s: State, e: AttachEvent)
    requires Slotted(s) && Waited(s) && Tasks(s) && AttachOk(s, e)
    ensures Tasks(AttachStep(s, e))
  {
  }

  lemma TasksSupDies(s: State, i: Id)
    requires Slotted(s) && Waited(s) && Tasks(s) && SupDiesOk(s, i)
    ensures Tasks(SupDies(s, i))
  {
  }

  lemma TasksSup(s: State, e: SupEvent)
    requires Slotted(s) && Waited(s) && Tasks(s) && SupOk(s, e)
    ensures Tasks(SupStep(s, e))
  {
    match e
    case DoSupDies(i) => TasksSupDies(s, i);
    case _ =>
  }

  lemma TasksRetryFail(s: State, t: Id)
    requires Slotted(s) && Waited(s) && Tasks(s) && RetryFailOk(s, t)
    ensures Tasks(RetryFail(s, t))
  {
  }

  lemma TasksRetryFault(s: State, t: Id)
    requires Slotted(s) && Waited(s) && Tasks(s) && RetryFaultOk(s, t)
    ensures Tasks(RetryFault(s, t))
  {
  }

  lemma TasksRetryInstall(s: State, t: Id)
    requires Slotted(s) && Waited(s) && Tasks(s) && RetryHolds(s, t)
    ensures Tasks(RetryInstall(s, t))
  {
  }

  lemma TasksRetryInstalled(s: State, t: Id)
    requires Slotted(s) && Waited(s) && Tasks(s) && RetryInstalledOk(s, t)
    ensures Tasks(RetryInstalled(s, t))
  {
  }

  lemma TasksRetryInstallFailed(s: State, t: Id)
    requires Slotted(s) && Waited(s) && Tasks(s) && RetryInstallFailedOk(s, t)
    ensures Tasks(RetryInstallFailed(s, t))
  {
  }

  lemma TasksRetryUnwind(s: State, t: Id)
    requires Slotted(s) && Waited(s) && Tasks(s) && RetryUnwindOk(s, t)
    ensures Tasks(RetryUnwind(s, t))
  {
  }

  lemma TasksRetryOther(s: State, e: RetryEvent)
    requires Slotted(s) && Waited(s) && Tasks(s) && RetryOk(s, e)
    requires e.DoRetryWake? || e.DoRetryBuilt? || e.DoRetryRefuse? || e.DoRetryEnds?
    ensures Tasks(RetryStep(s, e))
  {
  }

  lemma TasksRetry(s: State, e: RetryEvent)
    requires Slotted(s) && Waited(s) && Tasks(s) && RetryOk(s, e)
    ensures Tasks(RetryStep(s, e))
  {
    match e
    case DoRetryFail(t) => TasksRetryFail(s, t);
    case DoRetryFault(t) => TasksRetryFault(s, t);
    case DoRetryInstall(t) => TasksRetryInstall(s, t);
    case DoRetryInstalled(t) => TasksRetryInstalled(s, t);
    case DoRetryInstallFailed(t) => TasksRetryInstallFailed(s, t);
    case DoRetryUnwind(t) => TasksRetryUnwind(s, t);
    case _ => TasksRetryOther(s, e);
  }

  lemma TasksReloadInstall(s: State, n: Name)
    requires Slotted(s) && Waited(s) && Tasks(s) && ReloadInstallOk(s, n)
    ensures Tasks(ReloadInstall(s, n))
  {
    assert Listed(s.table, s.slots, s.table[n]);
  }

  lemma TasksReloadAttachFailed(s: State, n: Name)
    requires Slotted(s) && Waited(s) && Tasks(s) && ReloadAttachFailedOk(s, n)
    ensures Tasks(ReloadAttachFailed(s, n))
  {
  }

  lemma TasksReloadInstalled(s: State)
    requires Slotted(s) && Waited(s) && Tasks(s) && ReloadInstalledOk(s)
    ensures Tasks(ReloadInstalled(s))
  {
  }

  lemma TasksReloadInstallFailed(s: State, fault: bool)
    requires Slotted(s) && Waited(s) && Tasks(s) && Shown(s) && ReloadInstallFailedOk(s)
    ensures Tasks(ReloadInstallFailed(s, fault))
  {
    assert Listed(s.table, s.slots, s.table[s.control.cur.value.name]);
    var n := s.control.cur.value.name;
    assert StatusOf(s.control, SlotOf(s, n), n in s.failed, n in s.configFaults, Attended);
  }

  lemma TasksReloadRemove(s: State, n: Name)
    requires Slotted(s) && Waited(s) && Tasks(s) && ReloadRemoveOk(s, n)
    ensures Tasks(ReloadRemove(s, n))
  {
  }

  lemma TasksReload(s: State, e: ReloadEvent)
    requires Slotted(s) && Waited(s) && Tasks(s) && Shown(s) && ReloadOk(s, e)
    ensures Tasks(ReloadStep(s, e))
  {
    match e
    case DoReloadInstall(n) => TasksReloadInstall(s, n);
    case DoReloadAttachFailed(n) => TasksReloadAttachFailed(s, n);
    case DoReloadInstalled => TasksReloadInstalled(s);
    case DoReloadInstallFailed(fault) => TasksReloadInstallFailed(s, fault);
    case DoReloadRemove(n) => TasksReloadRemove(s, n);
    case _ =>
  }

  lemma TasksShutdown(s: State)
    requires Slotted(s) && Waited(s) && Tasks(s) && ShutdownOk(s)
    ensures Tasks(Shutdown(s))
  {
  }

  lemma TasksStopAll(s: State)
    requires Slotted(s) && Waited(s) && Tasks(s) && StopAllOk(s)
    ensures Tasks(StopAll(s))
  {
  }

  lemma TasksStop(s: State, e: StopEvent)
    requires Slotted(s) && Waited(s) && Tasks(s) && StopOk(s, e)
    ensures Tasks(StopStep(s, e))
  {
    match e
    case DoShutdown => TasksShutdown(s);
    case DoStopAll => TasksStopAll(s);
    case _ =>
  }

  // ------------------------------------------------------------------ The table holds the right names.

  lemma NamesBootOne(s: State, n: Name)
    requires TableOk(s.table, s.slots) && Names(s) && Holds(s) && BootOneOk(s, n)
    ensures Names(BootOne(s, n))
  {
  }

  lemma NamesBoot(s: State, e: BootEvent)
    requires TableOk(s.table, s.slots) && Names(s) && Holds(s) && BootOk(s, e)
    ensures Names(BootStep(s, e))
  {
    match e
    case DoBootOne(n) => NamesBootOne(s, n);
    case _ =>
  }

  lemma NamesChildFail(s: State, n: Name, fault: bool)
    requires TableOk(s.table, s.slots) && Names(s) && Holds(s) && ChildFailOk(s, n, fault)
    ensures Names(ChildFail(s, n, fault))
  {
  }

  lemma NamesAttach(s: State, e: AttachEvent)
    requires TableOk(s.table, s.slots) && Names(s) && Holds(s) && AttachOk(s, e)
    ensures Names(AttachStep(s, e))
  {
    match e
    case DoChildFail(n, fault) => NamesChildFail(s, n, fault);
    case _ =>
  }

  lemma NamesSup(s: State, e: SupEvent)
    requires TableOk(s.table, s.slots) && Names(s) && Holds(s) && SupOk(s, e)
    ensures Names(SupStep(s, e))
  {
  }

  lemma NamesRetry(s: State, e: RetryEvent)
    requires TableOk(s.table, s.slots) && Names(s) && Holds(s) && RetryOk(s, e)
    ensures Names(RetryStep(s, e))
  {
  }

  lemma NamesReloadInstall(s: State, n: Name)
    requires TableOk(s.table, s.slots) && Names(s) && Holds(s) && ReloadInstallOk(s, n)
    ensures Names(ReloadInstall(s, n))
  {
  }

  lemma NamesReloadAttachFailed(s: State, n: Name)
    requires TableOk(s.table, s.slots) && Names(s) && Holds(s) && ReloadAttachFailedOk(s, n)
    ensures Names(ReloadAttachFailed(s, n))
  {
  }

  lemma NamesReloadInstallFailed(s: State, fault: bool)
    requires TableOk(s.table, s.slots) && Names(s) && Holds(s) && ReloadInstallFailedOk(s)
    ensures Names(ReloadInstallFailed(s, fault))
  {
  }

  lemma NamesReload(s: State, e: ReloadEvent)
    requires TableOk(s.table, s.slots) && Names(s) && Holds(s) && ReloadOk(s, e)
    ensures Names(ReloadStep(s, e))
  {
    match e
    case DoReloadInstall(n) => NamesReloadInstall(s, n);
    case DoReloadAttachFailed(n) => NamesReloadAttachFailed(s, n);
    case DoReloadInstallFailed(fault) => NamesReloadInstallFailed(s, fault);
    case _ =>
  }

  lemma NamesStop(s: State, e: StopEvent)
    requires TableOk(s.table, s.slots) && Names(s) && Holds(s) && StopOk(s, e)
    ensures Names(StopStep(s, e))
  {
  }

  // ------------------------------------------------------------------ The failure marks are consistent.

  lemma MarkedBootOne(s: State, n: Name)
    requires Slotted(s) && TasksPlaced(s.table, s.slots, s.retries) && Marked(s) && BootOneOk(s, n)
    ensures Marked(BootOne(s, n))
  {
    assert n !in s.configFaults;
  }

  lemma MarkedStartInstalled(s: State)
    requires Slotted(s) && TasksPlaced(s.table, s.slots, s.retries) && Marked(s) && Shown(s) && StartInstalledOk(s)
    ensures Marked(StartInstalled(s))
  {
  }

  lemma MarkedBoot(s: State, e: BootEvent)
    requires Slotted(s) && TasksPlaced(s.table, s.slots, s.retries) && Marked(s) && Shown(s) && BootOk(s, e)
    ensures Marked(BootStep(s, e))
  {
    match e
    case DoBootOne(n) => MarkedBootOne(s, n);
    case DoStartInstalled => MarkedStartInstalled(s);
    case _ =>
  }

  lemma MarkedAttach(s: State, e: AttachEvent)
    requires Slotted(s) && TasksPlaced(s.table, s.slots, s.retries) && Marked(s) && AttachOk(s, e)
    ensures Marked(AttachStep(s, e))
  {
  }

  lemma MarkedSup(s: State, e: SupEvent)
    requires Slotted(s) && TasksPlaced(s.table, s.slots, s.retries) && Marked(s) && SupOk(s, e)
    ensures Marked(SupStep(s, e))
  {
  }

  lemma MarkedRetry(s: State, e: RetryEvent)
    requires Slotted(s) && TasksPlaced(s.table, s.slots, s.retries) && Marked(s) && RetryOk(s, e)
    ensures Marked(RetryStep(s, e))
  {
  }

  lemma MarkedReload(s: State, e: ReloadEvent)
    requires Slotted(s) && TasksPlaced(s.table, s.slots, s.retries) && Marked(s) && ReloadOk(s, e)
    ensures Marked(ReloadStep(s, e))
  {
  }

  lemma MarkedStop(s: State, e: StopEvent)
    requires Slotted(s) && TasksPlaced(s.table, s.slots, s.retries) && Marked(s) && StopOk(s, e)
    ensures Marked(StopStep(s, e))
  {
  }

  // ------------------------------------------------------------------ what an operator sees

  lemma ShownBootOne(s: State, n: Name)
    requires TableOk(s.table, s.slots) && Below(s.slots, s.next) && SlotsPlaced(s.table, s.slots, s.supervisors)
    requires TasksPlaced(s.table, s.slots, s.retries) && Names(s) && Holds(s) && Marked(s) && Shown(s)
    requires BootOneOk(s, n)
    ensures Shown(BootOne(s, n))
  {
  }

  lemma ShownStartInstall(s: State, n: Name)
    requires TableOk(s.table, s.slots) && Below(s.slots, s.next) && SlotsPlaced(s.table, s.slots, s.supervisors)
    requires TasksPlaced(s.table, s.slots, s.retries) && Names(s) && Holds(s) && Marked(s) && Shown(s)
    requires StartInstallOk(s, n)
    ensures Shown(StartInstall(s, n))
  {
  }

  lemma ShownStartDone(s: State)
    requires TableOk(s.table, s.slots) && Below(s.slots, s.next) && SlotsPlaced(s.table, s.slots, s.supervisors)
    requires TasksPlaced(s.table, s.slots, s.retries) && Names(s) && Holds(s) && Marked(s) && Shown(s)
    requires StartDoneOk(s)
    ensures Shown(StartDone(s))
  {
  }

  lemma ShownBoot(s: State, e: BootEvent)
    requires TableOk(s.table, s.slots) && Below(s.slots, s.next) && SlotsPlaced(s.table, s.slots, s.supervisors)
    requires TasksPlaced(s.table, s.slots, s.retries) && Names(s) && Holds(s) && Marked(s) && Shown(s) && BootOk(s, e)
    ensures Shown(BootStep(s, e))
  {
    match e
    case DoBootOne(n) => ShownBootOne(s, n);
    case DoStartInstall(n) => ShownStartInstall(s, n);
    case DoStartDone => ShownStartDone(s);
    case _ =>
  }

  lemma ShownAttach(s: State, e: AttachEvent)
    requires TableOk(s.table, s.slots) && Below(s.slots, s.next) && SlotsPlaced(s.table, s.slots, s.supervisors)
    requires TasksPlaced(s.table, s.slots, s.retries) && Names(s) && Holds(s) && Marked(s) && Shown(s)
    requires AttachOk(s, e)
    ensures Shown(AttachStep(s, e))
  {
  }

  lemma ShownSupDies(s: State, i: Id)
    requires TableOk(s.table, s.slots) && Below(s.slots, s.next) && SlotsPlaced(s.table, s.slots, s.supervisors)
    requires TasksPlaced(s.table, s.slots, s.retries) && Names(s) && Holds(s) && Marked(s) && Shown(s)
    requires SupDiesOk(s, i)
    ensures Shown(SupDies(s, i))
  {
  }

  lemma ShownSup(s: State, e: SupEvent)
    requires TableOk(s.table, s.slots) && Below(s.slots, s.next) && SlotsPlaced(s.table, s.slots, s.supervisors)
    requires TasksPlaced(s.table, s.slots, s.retries) && Names(s) && Holds(s) && Marked(s) && Shown(s) && SupOk(s, e)
    ensures Shown(SupStep(s, e))
  {
    match e
    case DoSupDies(i) => ShownSupDies(s, i);
    case _ =>
  }

  lemma ShownRetryBuilt(s: State, t: Id)
    requires TableOk(s.table, s.slots) && Below(s.slots, s.next) && SlotsPlaced(s.table, s.slots, s.supervisors)
    requires TasksPlaced(s.table, s.slots, s.retries) && Names(s) && Holds(s) && Marked(s) && Shown(s)
    requires RetryBuiltOk(s, t)
    ensures Shown(RetryBuilt(s, t))
  {
  }

  lemma ShownRetryRefuse(s: State, t: Id, fault: bool)
    requires TableOk(s.table, s.slots) && Below(s.slots, s.next) && SlotsPlaced(s.table, s.slots, s.supervisors)
    requires TasksPlaced(s.table, s.slots, s.retries) && Names(s) && Holds(s) && Marked(s) && Shown(s)
    requires RetryHolds(s, t)
    ensures Shown(RetryRefuse(s, t, fault))
  {
  }

  lemma ShownRetryFail(s: State, t: Id)
    requires TableOk(s.table, s.slots) && Below(s.slots, s.next) && SlotsPlaced(s.table, s.slots, s.supervisors)
    requires TasksPlaced(s.table, s.slots, s.retries) && Names(s) && Holds(s) && Marked(s) && Shown(s)
    requires RetryFailOk(s, t)
    ensures Shown(RetryFail(s, t))
  {
  }

  lemma ShownRetryFault(s: State, t: Id)
    requires TableOk(s.table, s.slots) && Below(s.slots, s.next) && SlotsPlaced(s.table, s.slots, s.supervisors)
    requires TasksPlaced(s.table, s.slots, s.retries) && Names(s) && Holds(s) && Marked(s) && Shown(s)
    requires RetryFaultOk(s, t)
    ensures Shown(RetryFault(s, t))
  {
  }

  lemma ShownRetryInstall(s: State, t: Id)
    requires TableOk(s.table, s.slots) && Below(s.slots, s.next) && SlotsPlaced(s.table, s.slots, s.supervisors)
    requires TasksPlaced(s.table, s.slots, s.retries) && Names(s) && Holds(s) && Marked(s) && Shown(s)
    requires RetryHolds(s, t)
    ensures Shown(RetryInstall(s, t))
  {
  }

  lemma ShownRetryInstalled(s: State, t: Id)
    requires TableOk(s.table, s.slots) && Below(s.slots, s.next) && SlotsPlaced(s.table, s.slots, s.supervisors)
    requires TasksPlaced(s.table, s.slots, s.retries) && Names(s) && Holds(s) && Marked(s) && Shown(s)
    requires RetryInstalledOk(s, t)
    ensures Shown(RetryInstalled(s, t))
  {
  }

  lemma ShownRetry(s: State, e: RetryEvent)
    requires TableOk(s.table, s.slots) && Below(s.slots, s.next) && SlotsPlaced(s.table, s.slots, s.supervisors)
    requires TasksPlaced(s.table, s.slots, s.retries) && Names(s) && Holds(s) && Marked(s) && Shown(s)
    requires RetryOk(s, e)
    ensures Shown(RetryStep(s, e))
  {
    match e
    case DoRetryBuilt(t) => ShownRetryBuilt(s, t);
    case DoRetryRefuse(t, fault) => ShownRetryRefuse(s, t, fault);
    case DoRetryFail(t) => ShownRetryFail(s, t);
    case DoRetryFault(t) => ShownRetryFault(s, t);
    case DoRetryInstall(t) => ShownRetryInstall(s, t);
    case DoRetryInstalled(t) => ShownRetryInstalled(s, t);
    case _ =>
  }

  lemma ShownReloadBegin(s: State, incoming: map<Name, string>)
    requires TableOk(s.table, s.slots) && Below(s.slots, s.next) && SlotsPlaced(s.table, s.slots, s.supervisors)
    requires TasksPlaced(s.table, s.slots, s.retries) && Names(s) && Holds(s) && Marked(s) && Shown(s)
    requires Reloadable(s)
    ensures Shown(ReloadBegin(s, incoming))
  {
  }

  lemma ShownReloadGathered(s: State)
    requires TableOk(s.table, s.slots) && Below(s.slots, s.next) && SlotsPlaced(s.table, s.slots, s.supervisors)
    requires TasksPlaced(s.table, s.slots, s.retries) && Names(s) && Holds(s) && Marked(s) && Shown(s)
    requires ReloadGatheredOk(s)
    ensures Shown(ReloadGathered(s))
  {
  }

  lemma ShownReloadPut(s: State, n: Name)
    requires TableOk(s.table, s.slots) && Below(s.slots, s.next) && SlotsPlaced(s.table, s.slots, s.supervisors)
    requires TasksPlaced(s.table, s.slots, s.retries) && Names(s) && Holds(s) && Marked(s) && Shown(s)
    requires ReloadPutOk(s, n)
    ensures Shown(ReloadPut(s, n))
  {
    assert n in Targets(s.prints, s.control.incoming);
    assert n !in s.registry && n !in s.failed;
  }

  lemma ShownReloadInstall(s: State, n: Name)
    requires TableOk(s.table, s.slots) && Below(s.slots, s.next) && SlotsPlaced(s.table, s.slots, s.supervisors)
    requires TasksPlaced(s.table, s.slots, s.retries) && Names(s) && Holds(s) && Marked(s) && Shown(s)
    requires ReloadInstallOk(s, n)
    ensures Shown(ReloadInstall(s, n))
  {
  }

  lemma ShownReloadAttachFailed(s: State, n: Name)
    requires TableOk(s.table, s.slots) && Below(s.slots, s.next) && SlotsPlaced(s.table, s.slots, s.supervisors)
    requires TasksPlaced(s.table, s.slots, s.retries) && Names(s) && Holds(s) && Marked(s) && Shown(s)
    requires ReloadAttachFailedOk(s, n)
    ensures Shown(ReloadAttachFailed(s, n))
  {
  }

  lemma ShownReloadInstalled(s: State)
    requires TableOk(s.table, s.slots) && Below(s.slots, s.next) && SlotsPlaced(s.table, s.slots, s.supervisors)
    requires TasksPlaced(s.table, s.slots, s.retries) && Names(s) && Holds(s) && Marked(s) && Shown(s)
    requires ReloadInstalledOk(s)
    ensures Shown(ReloadInstalled(s))
  {
  }

  lemma ShownReloadInstallFailed(s: State, fault: bool)
    requires TableOk(s.table, s.slots) && Below(s.slots, s.next) && SlotsPlaced(s.table, s.slots, s.supervisors)
    requires TasksPlaced(s.table, s.slots, s.retries) && Names(s) && Holds(s) && Marked(s) && Shown(s)
    requires ReloadInstallFailedOk(s)
    ensures Shown(ReloadInstallFailed(s, fault))
  {
    var m, r := s.control.cur.value.name, ReloadInstallFailed(s, fault);
    FailedInstallShown(s, fault);
    forall n | n in r.table && r.table[n] in r.slots && n != m
      ensures StatusOf(r.control, r.slots[r.table[n]], n in r.failed, n in r.configFaults,
                       TodoOf(n, None, r.registry, r.children, r.owned))
    {
      assert s.slots[s.table[n]].name == n;
      assert r.slots[r.table[n]] == s.slots[s.table[n]];
      assert TodoOf(n, None, r.registry, r.children, r.owned) ==
             TodoOf(n, s.control.cur, s.registry, s.children, s.owned);
    }
  }

  lemma FailedInstallShown(s: State, fault: bool)
    requires TableOk(s.table, s.slots) && Shown(s) && Holds(s) && Names(s) && ReloadInstallFailedOk(s)
    ensures var m, r := s.control.cur.value.name, ReloadInstallFailed(s, fault);
      StatusOf(r.control, r.slots[r.table[m]], m in r.failed, m in r.configFaults,
               TodoOf(m, None, r.registry, r.children, r.owned))
  {
    var m := s.control.cur.value.name;
    assert SlotOf(s, m).name == m;
  }

  lemma ShownReload(s: State, e: ReloadEvent)
    requires TableOk(s.table, s.slots) && Below(s.slots, s.next) && SlotsPlaced(s.table, s.slots, s.supervisors)
    requires TasksPlaced(s.table, s.slots, s.retries) && Names(s) && Holds(s) && Marked(s) && Shown(s)
    requires ReloadOk(s, e)
    ensures Shown(ReloadStep(s, e))
  {
    match e
    case DoReloadBegin(incoming) => ShownReloadBegin(s, incoming);
    case DoReloadGathered => ShownReloadGathered(s);
    case DoReloadPut(n) => ShownReloadPut(s, n);
    case DoReloadInstall(n) => ShownReloadInstall(s, n);
    case DoReloadAttachFailed(n) => ShownReloadAttachFailed(s, n);
    case DoReloadInstalled => ShownReloadInstalled(s);
    case DoReloadInstallFailed(fault) => ShownReloadInstallFailed(s, fault);
    case _ =>
  }

  lemma ShownAbort(s: State)
    requires TableOk(s.table, s.slots) && Below(s.slots, s.next) && SlotsPlaced(s.table, s.slots, s.supervisors)
    requires TasksPlaced(s.table, s.slots, s.retries) && Names(s) && Holds(s) && Marked(s) && Shown(s) && AbortOk(s)
    ensures Shown(Abort(s))
  {
  }

  lemma ShownStop(s: State, e: StopEvent)
    requires TableOk(s.table, s.slots) && Below(s.slots, s.next) && SlotsPlaced(s.table, s.slots, s.supervisors)
    requires TasksPlaced(s.table, s.slots, s.retries) && Names(s) && Holds(s) && Marked(s) && Shown(s) && StopOk(s, e)
    ensures Shown(StopStep(s, e))
  {
    match e
    case DoAbort => ShownAbort(s);
    case _ =>
  }

  // ------------------------------------------------------------------ What is left while shutdown waits.

  lemma LateBoot(s: State, e: BootEvent)
    requires Slotted(s) && Waited(s) && Tasks(s) && Late(s) && Holds(s) && BootOk(s, e)
    ensures Late(BootStep(s, e))
  {
  }

  lemma LateAttach(s: State, e: AttachEvent)
    requires Slotted(s) && Waited(s) && Tasks(s) && Late(s) && Holds(s) && AttachOk(s, e)
    ensures Late(AttachStep(s, e))
  {
  }

  lemma LateSup(s: State, e: SupEvent)
    requires Slotted(s) && Waited(s) && Tasks(s) && Late(s) && Holds(s) && SupOk(s, e)
    ensures Late(SupStep(s, e))
  {
  }

  lemma LateRetry(s: State, e: RetryEvent)
    requires Slotted(s) && Waited(s) && Tasks(s) && Late(s) && Holds(s) && RetryOk(s, e)
    ensures Late(RetryStep(s, e))
  {
  }

  lemma LateReload(s: State, e: ReloadEvent)
    requires Slotted(s) && Waited(s) && Tasks(s) && Late(s) && Holds(s) && ReloadOk(s, e)
    ensures Late(ReloadStep(s, e))
  {
  }

  lemma AllGone(tasks: set<TaskRef>, retries: map<Id, Retry>, retiring: set<TaskRef>, supervisors: map<Id, Supervisor>)
    requires Teardown(StopSupervisors(tasks), retries, retiring, supervisors) && AtRetries(supervisors, retries)
    requires forall t :: t in retries ==> RetryTask(t) !in tasks
    requires forall i :: i in supervisors ==> SupervisorTask(i) !in tasks || supervisors[i].phase.Closed?
    ensures Teardown(Down, retries, retiring, supervisors)
  {
  }

  lemma LateFinish(s: State)
    requires Waited(s) && Late(s) && FinishOk(s)
    ensures Late(Finish(s))
  {
    if s.lateDeaths == 0 {
      AllGone(s.control.tasks, s.retries, s.retiring, s.supervisors);
    }
  }

  lemma LateStop(s: State, e: StopEvent)
    requires Slotted(s) && Waited(s) && Tasks(s) && Late(s) && Holds(s) && StopOk(s, e)
    ensures Late(StopStep(s, e))
  {
    match e
    case DoFinish => LateFinish(s);
    case _ =>
  }

  // ------------------------------------------------------------------ Which tasks shutdown has cancelled.

  lemma TrackedBoot(s: State, e: BootEvent)
    requires Slotted(s) && Waited(s) && Tasks(s) && Tracked(s) && BootOk(s, e)
    ensures Tracked(BootStep(s, e))
  {
  }

  lemma TrackedAttach(s: State, e: AttachEvent)
    requires Slotted(s) && Waited(s) && Tasks(s) && Tracked(s) && AttachOk(s, e)
    ensures Tracked(AttachStep(s, e))
  {
  }

  lemma TrackedSupDies(s: State, i: Id)
    requires Slotted(s) && Waited(s) && Tasks(s) && Tracked(s) && SupDiesOk(s, i)
    ensures Tracked(SupDies(s, i))
  {
  }

  lemma TrackedSup(s: State, e: SupEvent)
    requires Slotted(s) && Waited(s) && Tasks(s) && Tracked(s) && SupOk(s, e)
    ensures Tracked(SupStep(s, e))
  {
    match e
    case DoSupDies(i) => TrackedSupDies(s, i);
    case _ =>
  }

  lemma TrackedRetryFault(s: State, t: Id)
    requires Slotted(s) && Waited(s) && Tasks(s) && Tracked(s) && RetryFaultOk(s, t)
    ensures Tracked(RetryFault(s, t))
  {
  }

  lemma TrackedRetryInstalled(s: State, t: Id)
    requires Slotted(s) && Waited(s) && Tasks(s) && Tracked(s) && RetryInstalledOk(s, t)
    ensures Tracked(RetryInstalled(s, t))
  {
  }

  lemma TrackedRetry(s: State, e: RetryEvent)
    requires Slotted(s) && Waited(s) && Tasks(s) && Tracked(s) && RetryOk(s, e)
    ensures Tracked(RetryStep(s, e))
  {
    match e
    case DoRetryFault(t) => TrackedRetryFault(s, t);
    case DoRetryInstalled(t) => TrackedRetryInstalled(s, t);
    case _ =>
  }

  lemma TrackedReload(s: State, e: ReloadEvent)
    requires Slotted(s) && Waited(s) && Tasks(s) && Tracked(s) && ReloadOk(s, e)
    ensures Tracked(ReloadStep(s, e))
  {
  }

  lemma TrackedShutdown(s: State)
    requires Slotted(s) && Waited(s) && Tasks(s) && Tracked(s) && ShutdownOk(s)
    ensures Tracked(Shutdown(s))
  {
  }

  lemma TrackedStopAll(s: State)
    requires Slotted(s) && Waited(s) && Tasks(s) && Tracked(s) && StopAllOk(s)
    ensures Tracked(StopAll(s))
  {
  }

  lemma TrackedStop(s: State, e: StopEvent)
    requires Slotted(s) && Waited(s) && Tasks(s) && Tracked(s) && StopOk(s, e)
    ensures Tracked(StopStep(s, e))
  {
    match e
    case DoShutdown => TrackedShutdown(s);
    case DoStopAll => TrackedStopAll(s);
    case _ =>
  }

  // ------------------------------------------------------------------ Every part.

  lemma InvBoot(s: State, e: BootEvent)
    requires Inv(s) && BootOk(s, e)
    ensures Inv(BootStep(s, e))
  {
    OwnedBoot(s, e);
    HoldsBoot(s, e);
    SlottedBoot(s, e);
    WaitedBoot(s, e);
    TasksBoot(s, e);
    NamesBoot(s, e);
    MarkedBoot(s, e);
    ShownBoot(s, e);
    LateBoot(s, e);
    TrackedBoot(s, e);
  }

  lemma InvAttach(s: State, e: AttachEvent)
    requires Inv(s) && AttachOk(s, e)
    ensures Inv(AttachStep(s, e))
  {
    OwnedAttach(s, e);
    HoldsAttach(s, e);
    SlottedAttach(s, e);
    WaitedAttach(s, e);
    TasksAttach(s, e);
    NamesAttach(s, e);
    MarkedAttach(s, e);
    ShownAttach(s, e);
    LateAttach(s, e);
    TrackedAttach(s, e);
  }

  lemma InvSup(s: State, e: SupEvent)
    requires Inv(s) && SupOk(s, e)
    ensures Inv(SupStep(s, e))
  {
    OwnedSup(s, e);
    HoldsSup(s, e);
    SlottedSup(s, e);
    WaitedSup(s, e);
    TasksSup(s, e);
    NamesSup(s, e);
    MarkedSup(s, e);
    ShownSup(s, e);
    LateSup(s, e);
    TrackedSup(s, e);
  }

  lemma InvRetry(s: State, e: RetryEvent)
    requires Inv(s) && RetryOk(s, e)
    ensures Inv(RetryStep(s, e))
  {
    OwnedRetry(s, e);
    HoldsRetry(s, e);
    SlottedRetry(s, e);
    WaitedRetry(s, e);
    TasksRetry(s, e);
    NamesRetry(s, e);
    MarkedRetry(s, e);
    ShownRetry(s, e);
    LateRetry(s, e);
    TrackedRetry(s, e);
  }

  lemma InvReload(s: State, e: ReloadEvent)
    requires Inv(s) && ReloadOk(s, e)
    ensures Inv(ReloadStep(s, e))
  {
    OwnedReload(s, e);
    HoldsReload(s, e);
    SlottedReload(s, e);
    WaitedReload(s, e);
    TasksReload(s, e);
    NamesReload(s, e);
    MarkedReload(s, e);
    ShownReload(s, e);
    LateReload(s, e);
    TrackedReload(s, e);
  }

  lemma InvStop(s: State, e: StopEvent)
    requires Inv(s) && StopOk(s, e)
    ensures Inv(StopStep(s, e))
  {
    OwnedStop(s, e);
    HoldsStop(s, e);
    SlottedStop(s, e);
    WaitedStop(s, e);
    TasksStop(s, e);
    NamesStop(s, e);
    MarkedStop(s, e);
    ShownStop(s, e);
    LateStop(s, e);
    TrackedStop(s, e);
  }

  /** The invariant is inductive. */
  lemma StepKeeps(s: State, e: Event)
    requires Inv(s) && Enabled(s, e)
    ensures Inv(Step(s, e))
  {
    match e
    case OfBoot(x) => InvBoot(s, x);
    case OfAttach(x) => InvAttach(s, x);
    case OfSup(x) => InvSup(s, x);
    case OfRetry(x) => InvRetry(s, x);
    case OfReload(x) => InvReload(s, x);
    case OfStop(x) => InvStop(s, x);
  }

  lemma InitKeeps(prints: map<Name, string>)
    ensures Inv(Init(prints))
  {
  }
}
