# A verified model of the gateway's state machines

beherouter is an MCP gateway. Several small asyncio state machines keep its
surfaces attached, its backends closed once, its callers apart and its limits
kept, and their docstrings promise exact guarantees. This project models them in
Dafny and proves those guarantees over every run, or says exactly when they fail.

How a machine is modelled. A step is what one coroutine does between two `await`s:
other tasks run at an `await` and never inside a step. A run is any sequence of
enabled steps, so any interleaving; a theorem about a `Reached` state is about
every state of every run. Backends, apps, providers and HTTP are opaque: a backend
or a provider is an identity with a count of how often it was closed. Clocks,
tokens and scores are `real`. Python integers are unbounded, as Dafny's are. A
dict that keeps its order is a sequence of items.

Each source file with mutable objects appears twice. `*State.dfy` (and
`ArgsSpec.dfy`) holds the machine or the functions. The file without a suffix
(`Runtime.dfy`, `Calendar.dfy`, `Reload.dfy`, `RateLimit.dfy`, `TokenExchange.dfy`,
`Catalogue.dfy`, `Search.dfy`, `Args.dfy`, `KillSwitch.dfy`) holds the source's own
methods and loops, on classes with the source's fields. A method's contract gives its
whole new state, by the machine's step where it is one (`Snapshot`). `*Invariant.dfy`, `*Steps.dfy`, `*Proofs.dfy`
and `*Theorems.dfy` hold the invariants and the results.

| part | files | source |
|---|---|---|
| surface runtime: slots, supervisors, retries, reload, shutdown | `Runtime*.dfy` | `runtime.py`, `gateway.py` |
| per-user calendar providers | `Calendar*.dfy` | `plugins/calendar/executor.py` |
| coalescing reloads, the registry diff | `Reload*.dfy`, `Sorting.dfy` | `reload.py` |
| token bucket | `RateLimit*.dfy` | `gates.py` |
| token exchange cache | `TokenExchange*.dfy` | `tokenexchange.py` |
| tool catalogue freshness | `Catalogue*.dfy` | `catalogue.py` |
| search ranking and pages | `Search*.dfy` | `search.py`, `indexing.py`, `surface.py` |
| argument preparation | `Args*.dfy`, `Json.dfy` | `args.py` |
| kill switch | `KillSwitch*.dfy`, `Json.dfy` | `killswitch.py` |

## Where the code does less than it says

Each of these is a concrete run or input, beside the theorem that says exactly when
the promise holds. The model follows the code.

- `build_surfaces` promises that when it raises it has closed what did attach. Nothing
  there catches the cancellation of its gather, so a cancelled boot drops the branches
  that had attached (`RuntimeBootCancel.CancelledBootLeaksABackend`). Whatever has no
  owner was closed exactly once if and only if the run holds no such cancellation
  (`RuntimeTheorems.UnownedIsClosedExactly`).
- `GatewayRuntime.shutdown` lists the retries of the table once. An app that dies
  while shutdown waits starts a retry in no list; it attaches a backend nobody
  closes (`RuntimeLateDeath.LateDeathLeaksABackend`). An app that raises while it
  leaves its lifespan, because shutdown cancelled it, does the same
  (`RuntimeLateDeath.ExitErrorLeaksABackend`). From the moment shutdown has taken its
  second list, it is sure to close everything if and only if no uncancelled retry may
  still attach, no supervisor runs unlisted and no listed app is left whose death would
  start a retry (`RuntimeShutdown.ShutdownClosesExactly`); if apps leave quietly from
  then on, the first of these decides (`RuntimeShutdown.ShutdownClosesUnlessRetrying`).
- `Reloader` promises that a cancelled reload fails its waiters. A `cancel()` that
  lands before `_run`'s first step executes no line of it, and they wait for ever
  (`ReloadTheorems.CancelledBeforeItsFirstStep`,
  `ReloadTheorems.CancelledUnstartedHangs`). Nobody hangs if and only if no `cancel()`
  of the run did that (`ReloadTheorems.NobodyHangs`).
- After `cancel()` a reload can still start, when the apply in flight returns instead
  of passing the cancellation on while a follow-up waits
  (`ReloadTheorems.SwallowedCancellation`); one does if and only if the run holds such
  a return (`ReloadTheorems.NothingStartsAfterCancel`).
- `CalendarExecutor.aclose` does not look at the counts: it can close a provider a
  call is using (`CalendarTheorems.AcloseClosesInUse`). A call to it is safe, whatever
  follows, if and only if no call is in flight and there is no deployment provider for
  later calls to share (`CalendarAclose.AcloseIsSafeExactly`); the step that closes one
  in use is known (`CalendarAclose.OnlyAcloseClosesInUse`), and so is which providers in
  use are closed (`CalendarAclose.ClosedInUseExactly`).
- `prepare_args` compares with Python's `==`: `True` given where the default is `1`
  is dropped (`ArgsProofs.TrueIsTakenForOne`). A value changes its meaning if and only
  if it is Python's equal of the default without being it
  (`ArgsProofs.PrepareKeepsMeaning`).
- A generated parameter name can be another argument's wire name, and then reaches
  the wrong argument (`ArgsProofs.ClashMisroutes`). Every parameter name reaches its
  own argument if and only if there is no such clash (`ArgsProofs.ParamsLeadHome`).
- A search page fetches one hit more per gated tool. A backend that repeats a tool
  name defeats that (`SearchTheorems.RepeatedNamesCanEmptyAPage`). A page is what the
  full ranking shows if and only if the fetched part has enough visible hits, or
  nothing visible lies beyond it (`SearchTheorems.PageIsCompleteExactly`); with distinct
  names that is always so (`SearchTheorems.PageIsComplete`).
- `KillSwitch.state` does not read a file again whose stamp failed once: a passing
  read error keeps the old state until the stamp changes
  (`KillSwitchProofs.PassingErrorSticks`). `KillSwitchProofs.LookIsExact` says on which
  call the answer is not what reading would give, and
  `KillSwitchProofs.CacheIsInvisibleExactly` that a history is answered as without the
  cache if and only if no call of it is one of those.
- `KillSwitch.update` writes in a thread under a lock. Cancelled while that thread
  writes, it lets go of the lock and the thread can overwrite the next update, which
  was told it had succeeded (`KillSwitchWriters.CancelledWriteLosesAnother`). A run is
  serial at every moment if and only if each of its writes ends on a file it is right
  for (`KillSwitchWriters.UpdatesAreSerialExactly`); a cancellation can lose a change
  if and only if a thread is already writing (`KillSwitchWriters.CancelIsSafeExactly`).

## Model

| member | source | states |
|---|---|---|
| `RuntimeSteps.StepKeeps` | src/beherouter/runtime.py:268-701 | every step of every actor keeps the invariant: who owns which backend, which slot has which supervisor and retry, which marks it carries |
| `RuntimeTheorems.EverySurfaceAccountedFor` | src/beherouter/runtime.py:352-671 | between reloads table, registry and fingerprints name the same surfaces; app and supervisor are set together; each surface serves or is in `failed`, never both; `config_faults` is part of `failed`; a failed one has a live retry of its own exactly if it lacks the configuration mark |
| `RuntimeTheorems.HealthIsTrue` | src/beherouter/runtime.py:703-732 | `/healthz` is ok exactly if every registered surface serves; it names each as serving or failed and none as both; `needs_config_change` are exactly the failed ones nothing retries |
| `RuntimeTheorems.DispatchedIsOpen` | src/beherouter/runtime.py:111-127 | the app a slot in the table dispatches to is serving, not stopped, and its backend is open |
| `RuntimeTheorems.OneOwnerThenOneClose` | src/beherouter/gateway.py:194-234 | in every reachable state each backend ever attached has exactly one owner and is open, or has none and was closed exactly once, or was dropped unclosed by a cancelled boot; none dispatched to is closed before shutdown |
| `RuntimeTheorems.UnownedIsClosedExactly` | src/beherouter/gateway.py:361-392 | every backend without an owner was closed exactly once, if and only if boot was not cancelled in the run while a branch of its gather had attached |
| `RuntimeBootCancel.CancelledBootLeaksABackend` | src/beherouter/gateway.py:369-392 | a run in which a cancelled boot leaves an attached backend open, with no owner |
| `RuntimeTheorems.LeftAtTheEnd` | src/beherouter/runtime.py:673-701 | after shutdown only a retry finishing an attach or a running supervisor can still own a backend |
| `RuntimeTheorems.ShutdownClosesEverything` | src/beherouter/runtime.py:673-701 | shutdown leaves every backend closed once and no retry, if no app failed while it waited, cancelled or not |
| `RuntimeShutdown.ShutdownClosesExactly` | src/beherouter/runtime.py:690-701 | once shutdown has cancelled its second list, every continuation to its end closes every backend, if and only if no uncancelled retry may still attach, no supervisor runs unlisted, and no app is left whose death starts a retry |
| `RuntimeShutdown.ShutdownClosesUnlessRetrying` | src/beherouter/runtime.py:686-701 | as it takes that list, and if no app dies from then on: if and only if it finds no uncancelled retry that may still attach |
| `RuntimeLateDeath.LateDeathLeaksABackend` | src/beherouter/runtime.py:438-451 | a run in which an app dies while shutdown waits, and shutdown ends with an open backend and a live retry |
| `RuntimeLateDeath.ExitErrorLeaksABackend` | src/beherouter/runtime.py:255-265 | a state in which shutdown has cancelled everything there is, and a run from it that leaks because the cancelled app raises on its way out; no run leaks in which it does not |
| `RuntimeTheorems.RetiredNeverRises` | src/beherouter/runtime.py:71-127 | once an app is swapped out or its slot removed, no step of anybody raises its count of requests |
| `RuntimeTheorems.DrainedClosesIdle` | src/beherouter/runtime.py:242-265 | a supervisor that closes because its app has drained closes with no request in flight |
| `RuntimeTheorems.NeverInstallsOnRemoved` | src/beherouter/runtime.py:420-436 | a retry whose app is ready still has its slot in the table: the branch for a removed slot is never taken by it |
| `RuntimeTheorems.ReloadLeavesUnchangedAlone` | src/beherouter/runtime.py:541-628 | no step of a reload touches a surface whose fingerprint is unchanged: same slot, app, retry and marks, and its supervisor is not stopped |
| `RuntimeSource.ReloadAttachesExactly` | src/beherouter/runtime.py:571-585 | a reload attaches a surface if and only if the file read has it and the registry in force has not, or has another entry for it |
| `RuntimeSource.ReloadAttachesTheDiff` | src/beherouter/runtime.py:571-575 | they are the names on the `added` and `changed` lists of `diff` |
| `RuntimeSource.ServesTheEntryInForce` | src/beherouter/runtime.py:438-671 | between reloads, over every run of attaches, retries, deaths and reloads, the app of a surface was attached from the entry in force, unless the surface is in `reload_failed`; and whatever is retried is retried with the entry in force |
| `RuntimeHistory.HealthTellsReloads` | src/beherouter/runtime.py:703-732 | `reload_failed` are exactly the surfaces whose last attach by a reload failed while they served, with no new app since; `last_reload` is there exactly if the last reload that ended was refused |
| `RuntimeHistory.RetriedExactly` | src/beherouter/runtime.py:469-657 | between reloads a surface that does not serve is retried if and only if its last failure in the run was not a configuration fault |
| `RuntimeHistory.ActiveIsInFlight` | src/beherouter/runtime.py:71-127 | the count of an app is the number of requests dispatched to it in the run less those that ended, over installs, swaps, removals and shutdown |
| `RuntimeProgress.NeverStuck` | src/beherouter/runtime.py:320-628 | in every reachable state of boot, start or a reload, that coroutine, a branch of its gather or the app it awaits can go on |
| `RuntimeProgress.RetryNeverStuck` | src/beherouter/runtime.py:469-539 | an uncancelled retry, or the app it is starting, can always go on |
| `Runtime.Counted.Enter` | src/beherouter/runtime.py:81-85 | one more request in flight; `_idle` is set exactly when there is none |
| `Runtime.Counted.Leave` | src/beherouter/runtime.py:86-89 | one request fewer; `_idle` is set exactly when there is none |
| `Runtime.GatewayRuntime.Install` | src/beherouter/runtime.py:420-436 | the slot gets the new app and supervisor and loses its mark; the previous supervisor is stopped and tracked |
| `Runtime.GatewayRuntime.ServingFailed` | src/beherouter/runtime.py:438-451 | nothing unless that supervisor still holds a slot of the table; else the slot is emptied and failed, and retried only if registered and not being retried; with the close that follows it is the machine's step of a dying app |
| `Runtime.GatewayRuntime.RetryFinishes` | src/beherouter/runtime.py:513-539 | after an install the retry drops its own handle only, clears the marks and ends: the machine's step of a retry that installs |
| `Runtime.GatewayRuntime.AttachFailed` | src/beherouter/runtime.py:630-657 | a surface that served keeps serving and is marked `reload_failed`; another is failed, with or without the configuration mark; a retry starts unless it is a configuration fault |
| `Runtime.GatewayRuntime.TargetFailed` | src/beherouter/runtime.py:593-612 | cancelling the old retry and recording the failure of a target's attach change the tables exactly as the machine's step does, the one the invariant is proved of |
| `Runtime.GatewayRuntime.TargetInstalled` | src/beherouter/runtime.py:596-606 | so do the end of a target's install and the clearing of its marks |
| `Runtime.GatewayRuntime.TargetRemoved` | src/beherouter/runtime.py:616-617 | so does the removal of a surface |
| `Runtime.GatewayRuntime.Remove` | src/beherouter/runtime.py:659-671 | the name leaves every table, its retry is cancelled, its supervisor stopped; an unknown name changes nothing |
| `Runtime.GatewayRuntime.RemoveAll` | src/beherouter/runtime.py:616-617 | exactly the removed names leave the table, each with its app stopped and its retry cancelled, both tracked; no other surface is touched |
| `Runtime.GatewayRuntime.StartRetries` | src/beherouter/runtime.py:365-371 | each failed surface without the configuration mark gets a new retry of its own, no other slot changes |
| `Runtime.GatewayRuntime.ListRetries` | src/beherouter/runtime.py:686-689 | exactly the retries that slots of the table hold |
| `Runtime.GatewayRuntime.ListSupervisors` | src/beherouter/runtime.py:690-695 | the supervisors of the table and everything retiring, and nothing else |
| `Runtime.GatewayRuntime.CancelAll` | src/beherouter/runtime.py:696-697 | exactly the listed tasks are cancelled |
| `CalendarSteps.StepKeeps` | src/beherouter/plugins/calendar/executor.py:70-181 | every step keeps the invariant: one place for each unclosed provider, exact counts, no idle provider left retired, the right users cached |
| `CalendarTheorems.NeverClosedInUse` | src/beherouter/plugins/calendar/executor.py:162-181 | no interleaving of calls closes a provider a call still uses |
| `CalendarTheorems.NeverClosedTwice` | src/beherouter/plugins/calendar/executor.py:112-134 | no provider is closed twice, with an `aclose` at any point |
| `CalendarTheorems.UnclosedIsListed` | src/beherouter/plugins/calendar/executor.py:84-134 | the unclosed providers are exactly the deployment's or what aclose has left, the cached and the retired ones, each listed once |
| `CalendarTheorems.QuietMeansEvictedAreClosed` | src/beherouter/plugins/calendar/executor.py:173-181 | with no call left nothing is retired or counted, and every evicted provider was closed once |
| `CalendarTheorems.CountsAreExact` | src/beherouter/plugins/calendar/executor.py:95-110 | `_inflight` is the number of calls holding each provider, with no zero entry, and every retired provider is held by a call |
| `CalendarTheorems.OpenAreBounded` | src/beherouter/plugins/calendar/executor.py:84-120 | open providers number at most 1 + cache size + calls in flight + closes being awaited |
| `CalendarTheorems.CacheIsMostRecent` | src/beherouter/plugins/calendar/executor.py:83-93 | the cache holds exactly the most recently used distinct keys, in order of last use, as many as fit |
| `CalendarTheorems.CallsUseTheirOwnProvider` | src/beherouter/plugins/calendar/executor.py:70-93 | every call is served by a provider built from credentials given under its own cache key, or by the deployment's if it has no identity |
| `CalendarTheorems.ServedExactly` | src/beherouter/plugins/calendar/executor.py:70-82 | a call is served if and only if it has an identity and there is a factory, or it has none and there is a deployment provider, however full the cache is |
| `CalendarTheorems.RunShares` | src/beherouter/plugins/calendar/executor.py:70-76 | a call without an identity is given the deployment's provider, and nothing is built or moved |
| `CalendarTheorems.RunHits` | src/beherouter/plugins/calendar/executor.py:83-87 | a call whose key is cached is given the provider cached for it, which becomes the newest, and nothing is built |
| `CalendarTheorems.RunBuilds` | src/beherouter/plugins/calendar/executor.py:88-103 | any other call is given a provider built for its key; with room nobody goes, without it exactly the oldest, which is retired while a call holds it and otherwise closed at once |
| `CalendarAclose.ClosedInUseExactly` | src/beherouter/plugins/calendar/executor.py:122-134 | in every reachable state, the provider of a call in flight is closed if and only if it is neither the deployment's, nor cached, nor retired, nor left to aclose |
| `CalendarAclose.OnlyAcloseClosesInUse` | src/beherouter/plugins/calendar/executor.py:112-134 | a step closes a provider in use if and only if it is aclose's and the provider whose turn it is has a count |
| `CalendarAclose.AcloseIsSafeExactly` | src/beherouter/plugins/calendar/executor.py:122-134 | after a call of aclose no run whatever leaves a call with a closed provider, if and only if at that call nothing is in flight and there is no deployment provider |
| `CalendarTheorems.AcloseClosesInUse` | src/beherouter/plugins/calendar/executor.py:122-134 | a run in which aclose closes a provider under a call |
| `Calendar.CalendarExecutor.ProviderFor` | src/beherouter/plugins/calendar/executor.py:70-93 | refuses exactly the callers it has nothing for, and then changes nothing; else a hit is the cached provider and moves to the end, a miss is built, cached, and with a full cache pushes exactly the oldest out to the retired list |
| `Calendar.CalendarExecutor.Acquire` | src/beherouter/plugins/calendar/executor.py:95-103 | what ProviderFor resolved is counted in the same step, and nothing else changes |
| `Calendar.CalendarExecutor.Release` | src/beherouter/plugins/calendar/executor.py:105-110 | one use fewer, and no entry of zero |
| `Calendar.CalendarExecutor.DetachIdle` | src/beherouter/plugins/calendar/executor.py:112-118 | what is idle is taken off the list and what is busy stays: nothing is lost, nothing doubled |
| `Calendar.Split` | src/beherouter/plugins/calendar/executor.py:113-118 | the two comprehensions split the list by whether a provider is counted |
| `Calendar.CalendarExecutor.DetachAll` | src/beherouter/plugins/calendar/executor.py:122-130 | aclose takes over everything unclosed that the executor held, once each |
| `ReloadProofs.StepKeeps` | src/beherouter/reload.py:138-195 | every step keeps the invariant over futures, requests and applies |
| `ReloadTheorems.OneApplyAtATime` | src/beherouter/reload.py:156-173 | an apply has ended before the next one starts |
| `ReloadTheorems.AnsweredByALaterApply` | src/beherouter/reload.py:138-173 | whoever is answered gets the outcome of an apply that started after the request, and has ended |
| `ReloadTheorems.ResolvedAsItEnded` | src/beherouter/reload.py:159-180 | in every run, the future of an apply that has ended holds the result if the apply returned, its exception if it raised, and a failure if it was cancelled |
| `ReloadTheorems.AnsweredAsItEnded` | src/beherouter/reload.py:138-180 | so every request, joined or not, is told success or failure exactly as the apply that served it ended |
| `ReloadTheorems.OneFollowUpForAll` | src/beherouter/reload.py:147-173 | all who ask during one apply wait for one future, that of the apply right after it, unless it was failed |
| `ReloadTheorems.AppliesDoNotExceedRequests` | src/beherouter/reload.py:138-173 | there are never more applies than accepted requests, and no future is applied twice |
| `ReloadTheorems.FirstTriggerWins` | src/beherouter/reload.py:148-168 | an apply is given the trigger of the first request it serves |
| `ReloadTheorems.TaskStepsArePaid` | src/beherouter/reload.py:156-173 | the follow-up loop has a measure: `_run` makes at most two steps per request |
| `ReloadTheorems.NobodyHangs` | src/beherouter/reload.py:174-191 | when the task is over, by success, exception or cancellation, every future is resolved and `_next` is None, if and only if no cancel() of the run found a `_run` scheduled and not begun |
| `ReloadTheorems.CancelledUnstartedHangs` | src/beherouter/reload.py:182-191 | after a cancel() that does, in every run in which the task gets to its end whoever waited for it or for the follow-up is left waiting |
| `ReloadTheorems.CancelledBeforeItsFirstStep` | src/beherouter/reload.py:153-180 | a run in which the requester waits for ever |
| `ReloadTheorems.RefusedExactlyAfterCancel` | src/beherouter/reload.py:138-145 | a request is refused exactly if it comes after cancel() |
| `ReloadTheorems.NothingStartsAfterCancel` | src/beherouter/reload.py:166-195 | no apply starts after cancel(), if and only if in the run no apply returned after a cancel() while a follow-up was waiting |
| `ReloadTheorems.NothingStartsAfterAbort` | src/beherouter/reload.py:174-195 | if no apply returns after cancel(), because each passes its cancellation on, none starts after it |
| `ReloadTheorems.CancelIsTerminal` | src/beherouter/reload.py:182-195 | once cancel()'s wait is over no step starts, ends or answers anything |
| `ReloadTheorems.SwallowedCancellation` | src/beherouter/reload.py:166-173 | a run whose second apply starts after cancel() |
| `Reload.Reloader.Request` | src/beherouter/reload.py:138-154 | refused after cancel(); during a reload it joins the one follow-up, made by the first to ask, with that one's trigger; otherwise it starts a reload |
| `Reload.Reloader.RunResumes` | src/beherouter/reload.py:159-173 | the apply's waiters are told its result or its exception, as it ended, and the follow-up starts if anybody asked |
| `Reload.Reloader.RunAborts` | src/beherouter/reload.py:174-180 | the waiters of both futures are failed |
| `Reload.Reloader.CancelRun` | src/beherouter/reload.py:182-189 | closes the reloader for good and cancels the reload in flight, if any |
| `Reload.DiffPartitions` | src/beherouter/reload.py:58-64 | every old or new name is in exactly one of the four lists, and each list is strictly increasing |
| `Reload.DiffRebuilds` | src/beherouter/reload.py:58-64 | acting on the lists leads from the old registry to the new one, and no other increasing lists do |
| `Reload.NothingToDoExactlyWhenEqual` | src/beherouter/reload.py:58-64 | nothing is added, removed or changed exactly if the registries are equal |
| `RateLimitProofs.SweepKeeps` | src/beherouter/gates.py:295-305 | sweeping changes no bucket's level, now or later |
| `RateLimitProofs.TakeLevels` | src/beherouter/gates.py:282-293 | a take is told by the key's level alone: its answer, what it leaves, and that no other key changes |
| `RateLimitTheorems.WindowIsBounded` | src/beherouter/gates.py:282-305 | in any window from t to u of any run a key's grants are at most burst + (u - t) * calls / per_s, over sweeps and re-attaches that keep the limit |
| `RateLimitTheorems.BurstThenWait` | src/beherouter/gates.py:253-293 | of calls made at once to a new limiter exactly the first `burst` are granted, `calls` where the table names none, and the next is told to wait per_s / calls |
| `RateLimitTheorems.SweepingIsInvisible` | src/beherouter/gates.py:295-305 | every answer is the one a limiter that never sweeps would give |
| `RateLimitTheorems.WaitIsExact` | src/beherouter/gates.py:282-293 | whatever happens meanwhile, the refused caller is refused before the wait is over and told the rest of it, and granted once it is over: refused calls spend nothing |
| `RateLimitTheorems.SpacedIsNeverRefused` | src/beherouter/gates.py:282-293 | a caller whose calls are per_s / calls apart is never refused, whatever others do |
| `RateLimitTheorems.NoStaleBuckets` | src/beherouter/gates.py:242-249 | every bucket left after a take was touched within per_s + burst * per_s / calls seconds |
| `RateLimitTheorems.SameReattachIsNothing` | src/beherouter/gates.py:264-272 | a re-attach with an equal limit is no refill |
| `RateLimit.RateLimiter.TakeToken` | src/beherouter/gates.py:282-293 | a caller has the full burst at first, then what was left and calls / per_s a second, up to the burst; with one token or more it is granted and spent, with less the answer is (1 - tokens) * per_s / calls; every bucket is left as in the machine the theorems are about |
| `RateLimit.RateLimiter.SweepOut` | src/beherouter/gates.py:295-305 | at most once per window, exactly the full buckets go |
| `RateLimit.FullKeys` | src/beherouter/gates.py:300-303 | exactly the keys whose bucket has refilled |
| `RateLimit.GatesFromEntry` | src/beherouter/gates.py:350-356 | the very same limiter while the limit is equal, else a new full one; no table leaves the limiters alone |
| `TokenExchangeProofs.StepKeeps` | src/beherouter/tokenexchange.py:224-332 | every step keeps the invariant over cache, exchanges and answers |
| `TokenExchangeProofs.OneExchangePerToken` | src/beherouter/tokenexchange.py:224-247 | at most one exchange is in flight per subject token |
| `TokenExchangeProofs.AskersJoin` | src/beherouter/tokenexchange.py:234-241 | whoever asks while it runs starts nothing and waits for it |
| `TokenExchangeProofs.CacheIsSubmap` | src/beherouter/tokenexchange.py:324-332 | the cache is at most MAX_ENTRIES, names each key once, and is a part of an unbounded cache of the last issues |
| `TokenExchangeProofs.AnswersAreOwnAndFresh` | src/beherouter/tokenexchange.py:224-247 | every answer was issued for the asker's own token; a cached one has more than SKEW_S left of its lifetime |
| `TokenExchangeProofs.EvictsLeastRecent` | src/beherouter/tokenexchange.py:328-331 | what an insertion pushes out was used before everything that stays |
| `TokenExchangeCache.KeptTokenServes` | src/beherouter/tokenexchange.py:224-332 | in every run, whoever asks again more than 30 s before the last token kept for them expires, and before 1024 others were used, gets that token at once, and nothing is exchanged |
| `TokenExchangeCache.LiveAnswers` | src/beherouter/tokenexchange.py:227-233 | a call is answered at once if and only if the cache holds an unexpired entry for its token |
| `TokenExchangeCache.OthersWait` | src/beherouter/tokenexchange.py:234-241 | every other call waits for an exchange of its own token: the one in flight, or a new one |
| `TokenExchangeCache.WaitersAreAnswered` | src/beherouter/tokenexchange.py:234-241 | a waiter gets the token its exchange was issued, for its own token |
| `TokenExchange.TokenExchanger.GetToken` | src/beherouter/tokenexchange.py:224-241 | an unexpired entry answers and becomes the newest; an expired one is deleted; a miss joins the exchange in flight, or starts the only one |
| `TokenExchange.TokenExchanger.Settled` | src/beherouter/tokenexchange.py:243-247 | an exchange takes itself out of the table, never another |
| `TokenExchange.TokenExchanger.Store` | src/beherouter/tokenexchange.py:324-331 | kept only with a lifetime over SKEW_S, then the oldest go |
| `TokenExchange.PopWhileTooMany` | src/beherouter/tokenexchange.py:330-331 | the newest MAX_ENTRIES stay |
| `CatalogueProofs.StepKeeps` | src/beherouter/catalogue.py:113-210 | every step keeps the invariant over re-lists, derived tables and drift |
| `CatalogueProofs.OneRelistAtATime` | src/beherouter/catalogue.py:162-182 | at most one re-list is in flight, whoever calls |
| `CatalogueProofs.DerivedFromTheCurrentTools` | src/beherouter/catalogue.py:113-124 | index and name map are always those of the current descriptors |
| `CatalogueProofs.DriftsReplay` | src/beherouter/catalogue.py:183-210 | new names are (old - removed) + added at every refresh, and all drifts replay from attach to now; pinned_missing are the pinned names no longer listed; the status is `drift` exactly if names changed or a pinned one is missing |
| `CatalogueProofs.DriftStands` | src/beherouter/catalogue.py:134-188 | a reported drift is replaced only by a re-list that started a TTL or more after it |
| `CatalogueProofs.AskedOncePerTtl` | src/beherouter/catalogue.py:143-144 | a backend is asked again only a TTL after it last answered or failed |
| `CatalogueProofs.RelistsExactlyWhenDue` | src/beherouter/catalogue.py:162-170 | in every run, a call starts a re-list if and only if there is a relister with a TTL, the TTL is over since the last attempt that was not cancelled or the attach, and no re-list is in flight |
| `CatalogueProofs.MissingArePinnedAtAttach` | src/beherouter/catalogue.py:93-210 | after a re-list `pinned_missing` are exactly the tools pinned at attach that are no longer listed |
| `CatalogueProofs.StatusIsTrue` | src/beherouter/catalogue.py:173-188 | `stale` exactly if the last attempt that was not cancelled failed, `drift` exactly if it found a change |
| `CatalogueProofs.OffMeansInert` | src/beherouter/catalogue.py:162-165 | without a relister, or with a TTL of 0, nothing is ever re-listed or claimed |
| `Catalogue.Catalogue.EnsureFresh` | src/beherouter/catalogue.py:162-170 | re-lists if and only if there is a relister with a TTL, the TTL is over, and no re-list is in flight |
| `Catalogue.Catalogue.Listed` | src/beherouter/catalogue.py:181-188 | the new tools, with what was derived dropped and the drift that leads to them |
| `Catalogue.Catalogue.ListFailed` | src/beherouter/catalogue.py:173-182 | the tools, what is derived and the drift stay; the clock and the status move |
| `Catalogue.Catalogue.GetByName` | src/beherouter/catalogue.py:113-118 | the map is built once per generation |
| `Catalogue.BuildByName` | src/beherouter/catalogue.py:117 | the map holds the last descriptor of each name |
| `SearchProofs.OrderDoesNotMatter` | src/beherouter/search.py:149-222 | the ranking does not depend on the order in which the vocabulary is walked |
| `SearchProofs.BestIsGreatest` | src/beherouter/search.py:196-205 | a tool's match is the most that any one term earns, and some term earns it |
| `SearchProofs.RankShape` | src/beherouter/search.py:210-222 | the tools the query names, then the survivors, best first, each tool once |
| `SearchTheorems.FoundExactly` | src/beherouter/search.py:210-222 | something is found if and only if the query names a tool, or some token of it is a term of one, begins one, begins with one or is near one in spelling, despite both cutoffs |
| `SearchTheorems.ScoreAdds` | src/beherouter/search.py:188-208 | the score of a query is the sum of those of its parts, and the coverage too |
| `SearchTheorems.ScoreOfOne` | src/beherouter/search.py:188-208 | that of one token is its match, and counts as covered exactly if it matches |
| `SearchTheorems.DistinctOnce` | src/beherouter/search.py:188 | each token of a query counts once |
| `SearchTheorems.EarnsExactly` | src/beherouter/search.py:149-205 | a term earns its score plus 0.1 for the same word, 0.6 of it for a prefix and 0.4 for a near spelling, capped by the best exact match |
| `SearchTheorems.RankedExactly` | src/beherouter/search.py:210-222 | exactly the tools the query names are found, and those within 0.35 of the best other score that match at least 0.6 of what any such tool matches; the named first, the others by falling score, then by index |
| `SearchTheorems.MatchBounds` | src/beherouter/search.py:190-205 | an expansion earns at most 0.6 of the best exact match |
| `SearchTheorems.TyposNeverLead` | src/beherouter/search.py:169-222 | for a one-token query in the vocabulary the best exact match is found, before every tool matched only by prefix or near spelling |
| `SearchTheorems.PageIsComplete` | src/beherouter/surface.py:406-423 | with distinct names a page is the first `limit` visible entries of the full ranking |
| `SearchTheorems.OverFetch` | src/beherouter/surface.py:413-423 | fetching n + extra, filtering and cutting loses nothing if at most extra are hidden |
| `SearchTheorems.PageIsCompleteExactly` | src/beherouter/surface.py:406-423 | for every index, query, limit and roles: the page is the first `limit` visible entries of the full ranking, if and only if what was fetched has that many, or nothing visible lies beyond it |
| `SearchTheorems.RepeatedNamesCanEmptyAPage` | src/beherouter/surface.py:413-423 | an index with a repeated name, a query and a hidden name for which the page is empty and the filtered ranking is not |
| `Search.ExpandToken` | src/beherouter/search.py:149-167 | the exact term first, then every other term that matches |
| `Search.MatchAll` | src/beherouter/search.py:189-205 | the loops with their running cap compute each tool's best match |
| `Search.SearchTools` | src/beherouter/search.py:169-222 | the sums over distinct tokens, the name matches, both cutoffs and the sort give the first `limit` of the ranking (Python's slice, for a negative one too) |
| `Search.SearchPage` | src/beherouter/surface.py:406-423 | the clamp, the over-fetch, the filter and the cut give the page that `PageIsComplete` is about |
| `Search.SearchHits` | src/beherouter/indexing.py:61-83 | one hit per name, in order; pinned exactly if published |
| `Search.ToolIndex.Add` | src/beherouter/search.py:118-137 | a name's own key is among its document's tokens, and the index is rebuilt |
| `ArgsProofs.RenameIsFirstFree` | src/beherouter/args.py:91-95 | the renaming loop ends on the first free name among the wanted one and its underscored forms |
| `ArgsProofs.ParamsAreDistinct` | src/beherouter/args.py:89-97 | generated parameter names are pairwise distinct |
| `ArgsProofs.NormalizedExactly` | src/beherouter/args.py:89-97 | each argument keeps its place and what is declared of it, and its parameter name is the first underscored form of the wanted one that no earlier argument has |
| `ArgsProofs.WireExactly` | src/beherouter/args.py:138-154 | a key means the argument of that wire name, else the one of that parameter name, else itself on an open schema and nothing on a closed one |
| `ArgsProofs.DefaultsExactly` | src/beherouter/args.py:143 | the defaults dropped are those of the optional arguments that declare one |
| `ArgsProofs.ParamsLeadHome` | src/beherouter/args.py:138-142 | every parameter name leads to its own argument, exactly if no generated name is another's wire name |
| `ArgsProofs.ClashMisroutes` | src/beherouter/args.py:139-142 | a schema whose published parameter reaches another argument |
| `ArgsProofs.CollectIs` | src/beherouter/args.py:146-165 | the loop succeeds exactly if every key is known or allowed and no two mean the same argument |
| `ArgsProofs.PreparedExactly` | src/beherouter/args.py:146-172 | a call is accepted exactly then, and if every required argument is given and not null |
| `ArgsProofs.RefusedForAReason` | src/beherouter/args.py:146-172 | a refusal names the first key that is unknown or a second spelling, with the first spelling; if there is none, the first required argument that is missing |
| `ArgsProofs.PrepareIsIdempotent` | src/beherouter/args.py:122-172 | preparing what was prepared changes nothing, order included |
| `ArgsProofs.PrepareKeepsMeaning` | src/beherouter/args.py:130-135 | with defaults filled in, what is forwarded means something else than what was given, if and only if a value is Python's equal of the default without being it; then it means the default |
| `ArgsProofs.TrueIsTakenForOne` | src/beherouter/args.py:163-164 | True given for a default of 1 is dropped |
| `ArgsProofs.EqualToItself` | src/beherouter/args.py:163-164 | a value equals itself, so a default given explicitly is dropped |
| `ArgsProofs.SpellingDoesNotMatter` | src/beherouter/args.py:125-127 | parameter and wire spelling give the same result, if no generated name is another's wire name |
| `Args.NormalizeArgs` | src/beherouter/args.py:89-97 | the loops end and give each argument its name, in order |
| `Args.Tables` | src/beherouter/args.py:139-143 | wire names stand for themselves, before any parameter name |
| `Args.PrepareArgs` | src/beherouter/args.py:146-172 | the loops give the call or its first refusal: an unknown argument, one given twice, a missing one |
| `KillSwitchProofs.ParseOfAsJson` | src/beherouter/killswitch.py:64-93 | what the admin API shows parses to the same state |
| `KillSwitchProofs.ParseExactly` | src/beherouter/killswitch.py:71-93 | a file parses if and only if it is an object of at most `all`, `surfaces` and `subjects`, of the shapes they must have, and then means those stops |
| `KillSwitchProofs.DisabledExactly` | src/beherouter/killswitch.py:47-54 | a surface is stopped by the stop of all, and otherwise exactly by its own |
| `KillSwitchProofs.MissingStopsNothing` | src/beherouter/killswitch.py:123-132 | a missing file stops nothing, whatever was read before |
| `KillSwitchProofs.LookIsExact` | src/beherouter/killswitch.py:123-170 | on any call, the answer is not that of a reader that reads every time, if and only if the stamp is one the cache recalls and the file would read as another state than the kept one; and when `stale` is not whether the file could be read |
| `KillSwitchProofs.CacheIsInvisibleExactly` | src/beherouter/killswitch.py:123-170 | every call of a history is answered as by a last-good reader without a cache, if and only if no call of it is such a miss |
| `KillSwitchProofs.CacheIsInvisible` | src/beherouter/killswitch.py:123-170 | where a stamp decides what a read gives: every answer is the uncached one, an error only if there never was a good state, and `stale` exactly if this call could not read the file |
| `KillSwitchProofs.PassingErrorSticks` | src/beherouter/killswitch.py:134-136 | a history in which a passing error keeps the old state |
| `KillSwitchWriters.UpdatesAreSerialExactly` | src/beherouter/killswitch.py:191-223 | at every moment of a run, concurrent updates, cancelled ones and the hand edits between them have the effect and the outcomes of one after the other, if and only if every write of the run ends on a file that it is right for |
| `KillSwitchWriters.MisfitsWereOvertaken` | src/beherouter/killswitch.py:197-215 | a write that is not right for the file was computed from another one |
| `KillSwitchWriters.CancelIsSafeExactly` | src/beherouter/killswitch.py:197-215 | if no cancellation before it came during a write, a cancelled update loses no change in any run, if and only if its thread is not writing yet |
| `KillSwitchWriters.UpdatesAreSerial` | src/beherouter/killswitch.py:191-223 | with no cancellation during a write, no change is lost |
| `KillSwitchWriters.WrittenFilesParse` | src/beherouter/killswitch.py:206-215 | no interleaving leaves a file an update wrote that does not parse |
| `KillSwitchWriters.CancelledWriteLosesAnother` | src/beherouter/killswitch.py:213-215 | a run in which a cancelled update overwrites one that succeeded |
| `KillSwitch.RunUpdate` | src/beherouter/killswitch.py:197-223 | only a file that parses is changed, and only into one that parses; every refusal leaves the file as it was |
| `KillSwitch.Switch.GetState` | src/beherouter/killswitch.py:123-170 | the answer and the whole state after every branch: missing, unchanged, known bad, read, refused |

## Left out

Assumptions of the runtime machine:

- Before shutdown, an app dies only when no `start()` or reload is in progress, and not
  between reporting ready and its installer's next step. Otherwise `_serving_failed` can start
  a retry that `_attach_failed` or `start()` overwrites.
- A cancel is delivered where a coroutine is suspended, and none lands during
  the close of a backend or a provider.
- Slots, supervisors and retries are records under identities, and each pass of a loop
  that awaits is a step of its own: more interleavings than the code has, never fewer.
- Drain deadlines are a step that may come at any time; their length is not modelled.
- A registry entry is identified with its fingerprint: that the digest tells entries apart
  is taken for granted.
- HealthIsTrue: leaves out the pins and the kill switch, which are reported as they are.

Simplifications elsewhere:

- The calendar factory returns a new object each time, or raises and changes nothing.
  Argument validation before `_acquire` is not modelled.
- Token exchange runs on one event loop: the check for an exchange of another loop is left
  out, and so are the request and the refusals of the endpoint's answer, which all
  amount to a failed exchange. The digest of a subject token is taken to be injective.
- The lists of a drift are sets: their sorting is not modelled.
- BM25 scores and `fuzz.ratio` are arbitrary functions; tokenising, `brief` and
  `suggest` are left out. Scores, buckets and clocks are reals, so rounding is not
  modelled, and neither is NaN; monotonic clocks never go back.
- The rounded `retry_after` of a rate-limited call, and the choice of its bucket key,
  are left out.
- Reading a schema's two dialects, Python types, enums and the did-you-mean hint are
  left out of argument preparation: it starts from the declared arguments, with
  `param_name` an arbitrary function.
- The kill switch's log lines, file modes and temporary files are left out; a rename
  is atomic, and a hand edit during an update, which the source gives up on, is not a
  step.

Not modelled, because it is plumbing, plain formatting or branch-by-branch checking:
FastMCP, Starlette, httpx and the MCP transports; the registry's comment-keeping merge;
JWT, role and audience checks; config and lint validation; plugin specs; the CLI,
renderers, metrics, logs and audit text; provider adapters and OAuth consent.
