/** The steps of the surface runtime as events, and what each does. */
module RuntimeEvents {
  import opened Wrappers
  import opened RuntimeState

  datatype BootEvent =
    | DoBootOne(n: Name)
    | DoBootDone
    | DoStart
    | DoStartInstall(n: Name)
    | DoStartInstalled
    | DoStartRetry(n: Name)
    | DoStartDone

  datatype AttachEvent =
    | DoChildBuilt(n: Name)
    | DoChildFail(n: Name, fault: bool)
    | DoChildRefuse(n: Name, fault: bool)
    | DoChildAttach(n: Name)

  datatype SupEvent =
    | DoSupReady(i: Id)
    | DoSupFails(i: Id)
    | DoSupDrained(i: Id)
    | DoSupEnd(i: Id, why: EndReason)
    | DoSupDies(i: Id)
    | DoForget(r: TaskRef)
    | DoRequest(n: Name)
    | DoRequestDone(i: Id)

  datatype RetryEvent =
    | DoRetryWake(t: Id)
    | DoRetryBuilt(t: Id)
    | DoRetryRefuse(t: Id, fault: bool)
    | DoRetryFail(t: Id)
    | DoRetryFault(t: Id)
    | DoRetryInstall(t: Id)
    | DoRetryInstalled(t: Id)
    | DoRetryInstallFailed(t: Id)
    | DoRetryUnwind(t: Id)
    | DoRetryEnds(t: Id)

  datatype ReloadEvent =
    | DoReloadRefused
    | DoReloadBegin(incoming: map<Name, string>)
    | DoReloadGathered
    | DoReloadPut(n: Name)
    | DoReloadInstall(n: Name)
    | DoReloadAttachFailed(n: Name)
    | DoReloadInstalled
    | DoReloadInstallFailed(fault: bool)
    | DoReloadRemove(n: Name)
    | DoReloadDone

  datatype StopEvent =
    | DoBootCancel
    | DoBootRefuse
    | DoAbort
    | DoAbortChild(n: Name)
    | DoAbortWaited
    | DoAbortClose(n: Name)
    | DoShutdown
    | DoStopAll
    | DoCloseBooted(n: Name)
    | DoFinish

  datatype Event =
    | OfBoot(boot: BootEvent)
    | OfAttach(attach: AttachEvent)
    | OfSup(sup: SupEvent)
    | OfRetry(retry: RetryEvent)
    | OfReload(reload: ReloadEvent)
    | OfStop(stop: StopEvent)

  predicate BootOk(s: State, e: BootEvent) {
    match e
    case DoBootOne(n) => BootOneOk(s, n)
    case DoBootDone => BootDoneOk(s)
    case DoStart => StartOk(s)
    case DoStartInstall(n) => StartInstallOk(s, n)
    case DoStartInstalled => StartInstalledOk(s)
    case DoStartRetry(n) => StartRetryOk(s, n)
    case DoStartDone => StartDoneOk(s)
  }

  function BootStep(s: State, e: BootEvent): State
    requires BootOk(s, e)
  {
    match e
    case DoBootOne(n) => BootOne(s, n)
    case DoBootDone => BootDone(s)
    case DoStart => Start(s)
    case DoStartInstall(n) => StartInstall(s, n)
    case DoStartInstalled => StartInstalled(s)
    case DoStartRetry(n) => StartRetry(s, n)
    case DoStartDone => StartDone(s)
  }

  predicate AttachOk(s: State, e: AttachEvent) {
    match e
    case DoChildBuilt(n) => ChildBuiltOk(s, n)
    case DoChildFail(n, fault) => ChildFailOk(s, n, fault)
    case DoChildRefuse(n, fault) => ChildHolds(s, n)
    case DoChildAttach(n) => ChildHolds(s, n)
  }

  function AttachStep(s: State, e: AttachEvent): State
    requires AttachOk(s, e)
  {
    match e
    case DoChildBuilt(n) => ChildBuilt(s, n)
    case DoChildFail(n, fault) => ChildFail(s, n, fault)
    case DoChildRefuse(n, fault) => ChildRefuse(s, n, fault)
    case DoChildAttach(n) => ChildAttach(s, n)
  }

  predicate SupOk(s: State, e: SupEvent) {
    match e
    case DoSupReady(i) => SupReadyOk(s, i)
    case DoSupFails(i) => SupFailsOk(s, i)
    case DoSupDrained(i) => SupDrainedOk(s, i)
    case DoSupEnd(i, why) => SupEndOk(s, i, why)
    case DoSupDies(i) => SupDiesOk(s, i)
    case DoForget(r) => ForgetOk(s, r)
    case DoRequest(n) => RequestOk(s, n)
    case DoRequestDone(i) => RequestDoneOk(s, i)
  }

  function SupStep(s: State, e: SupEvent): State
    requires SupOk(s, e)
  {
    match e
    case DoSupReady(i) => SupReady(s, i)
    case DoSupFails(i) => SupClose(s, i)
    case DoSupDrained(i) => SupDrained(s, i)
    case DoSupEnd(i, why) => SupClose(s, i)
    case DoSupDies(i) => SupDies(s, i)
    case DoForget(r) => Forget(s, r)
    case DoRequest(n) => Request(s, n)
    case DoRequestDone(i) => RequestDone(s, i)
  }

  predicate RetryOk(s: State, e: RetryEvent) {
    match e
    case DoRetryWake(t) => RetryWakeOk(s, t)
    case DoRetryBuilt(t) => RetryBuiltOk(s, t)
    case DoRetryRefuse(t, fault) => RetryHolds(s, t)
    case DoRetryFail(t) => RetryFailOk(s, t)
    case DoRetryFault(t) => RetryFaultOk(s, t)
    case DoRetryInstall(t) => RetryHolds(s, t)
    case DoRetryInstalled(t) => RetryInstalledOk(s, t)
    case DoRetryInstallFailed(t) => RetryInstallFailedOk(s, t)
    case DoRetryUnwind(t) => RetryUnwindOk(s, t)
    case DoRetryEnds(t) => RetryEndsOk(s, t)
  }

  function RetryStep(s: State, e: RetryEvent): State
    requires RetryOk(s, e)
  {
    match e
    case DoRetryWake(t) => RetryWake(s, t)
    case DoRetryBuilt(t) => RetryBuilt(s, t)
    case DoRetryRefuse(t, fault) => RetryRefuse(s, t, fault)
    case DoRetryFail(t) => RetryFail(s, t)
    case DoRetryFault(t) => RetryFault(s, t)
    case DoRetryInstall(t) => RetryInstall(s, t)
    case DoRetryInstalled(t) => RetryInstalled(s, t)
    case DoRetryInstallFailed(t) => RetryInstallFailed(s, t)
    case DoRetryUnwind(t) => RetryUnwind(s, t)
    case DoRetryEnds(t) => RetryEnds(s, t)
  }

  predicate ReloadOk(s: State, e: ReloadEvent) {
    match e
    case DoReloadRefused => Reloadable(s)
    case DoReloadBegin(incoming) => Reloadable(s)
    case DoReloadGathered => ReloadGatheredOk(s)
    case DoReloadPut(n) => ReloadPutOk(s, n)
    case DoReloadInstall(n) => ReloadInstallOk(s, n)
    case DoReloadAttachFailed(n) => ReloadAttachFailedOk(s, n)
    case DoReloadInstalled => ReloadInstalledOk(s)
    case DoReloadInstallFailed(fault) => ReloadInstallFailedOk(s)
    case DoReloadRemove(n) => ReloadRemoveOk(s, n)
    case DoReloadDone => ReloadDoneOk(s)
  }

  function ReloadStep(s: State, e: ReloadEvent): State
    requires ReloadOk(s, e)
  {
    match e
    case DoReloadRefused => ReloadRefused(s)
    case DoReloadBegin(incoming) => ReloadBegin(s, incoming)
    case DoReloadGathered => ReloadGathered(s)
    case DoReloadPut(n) => ReloadPut(s, n)
    case DoReloadInstall(n) => ReloadInstall(s, n)
    case DoReloadAttachFailed(n) => ReloadAttachFailed(s, n)
    case DoReloadInstalled => ReloadInstalled(s)
    case DoReloadInstallFailed(fault) => ReloadInstallFailed(s, fault)
    case DoReloadRemove(n) => ReloadRemove(s, n)
    case DoReloadDone => ReloadDone(s)
  }

  predicate StopOk(s: State, e: StopEvent) {
    match e
    case DoBootCancel => BootCancelOk(s)
    case DoBootRefuse => BootRefuseOk(s)
    case DoAbort => AbortOk(s)
    case DoAbortChild(n) => AbortChildOk(s, n)
    case DoAbortWaited => AbortWaitedOk(s)
    case DoAbortClose(n) => AbortCloseOk(s, n)
    case DoShutdown => ShutdownOk(s)
    case DoStopAll => StopAllOk(s)
    case DoCloseBooted(n) => CloseBootedOk(s, n)
    case DoFinish => FinishOk(s)
  }

  function StopStep(s: State, e: StopEvent): State
    requires StopOk(s, e)
  {
    match e
    case DoBootCancel => BootCancel(s)
    case DoBootRefuse => BootRefuse(s)
    case DoAbort => Abort(s)
    case DoAbortChild(n) => AbortChild(s, n)
    case DoAbortWaited => AbortWaited(s)
    case DoAbortClose(n) => AbortClose(s, n)
    case DoShutdown => Shutdown(s)
    case DoStopAll => StopAll(s)
    case DoCloseBooted(n) => CloseBooted(s, n)
    case DoFinish => Finish(s)
  }

  predicate Enabled(s: State, e: Event) {
    match e
    case OfBoot(x) => BootOk(s, x)
    case OfAttach(x) => AttachOk(s, x)
    case OfSup(x) => SupOk(s, x)
    case OfRetry(x) => RetryOk(s, x)
    case OfReload(x) => ReloadOk(s, x)
    case OfStop(x) => StopOk(s, x)
  }

  function Step(s: State, e: Event): State
    requires Enabled(s, e)
  {
    match e
    case OfBoot(x) => BootStep(s, x)
    case OfAttach(x) => AttachStep(s, x)
    case OfSup(x) => SupStep(s, x)
    case OfRetry(x) => RetryStep(s, x)
    case OfReload(x) => ReloadStep(s, x)
    case OfStop(x) => StopStep(s, x)
  }
}
