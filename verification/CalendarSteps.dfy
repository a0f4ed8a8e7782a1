/** Each step of CalendarState keeps CalendarInvariant. */
module CalendarSteps {
  import opened Wrappers
  import opened CalendarState
  import opened CalendarInvariant

  // ------------------------------------------------------------------ _close_idle_retired

  /** Between the change of a count and the closing of what it left idle, only `x` can be idle. */
  ghost predicate OnlyIdle(retired: seq<Id>, inflight: map<Id, nat>, x: Id) {
    forall p <- retired :: p in inflight || p == x
  }

  lemma {:induction false} NoneIdle(retired: seq<Id>, inflight: map<Id, nat>)
    requires Waiting(retired, inflight)
    ensures Idle(retired, inflight) == []
  {
    if retired != [] {
      var p := retired[0];
      assert p in retired;
      NoneIdle(retired[1..], inflight);
    }
  }

  lemma {:induction false} IdleIsOne(retired: seq<Id>, inflight: map<Id, nat>, x: Id)
    requires OnlyIdle(retired, inflight, x) && multiset(retired)[x] <= 1
    ensures Idle(retired, inflight) == [] || (x in retired && x !in inflight && Idle(retired, inflight) == [x])
  {
    if retired != [] {
      var rest := retired[1..];
      assert multiset(retired) == multiset([retired[0]]) + multiset(rest) by { assert retired == [retired[0]] + rest; }
      if retired[0] in inflight {
        IdleIsOne(rest, inflight, x);
      } else {
        assert retired[0] == x;
        assert x !in multiset(rest);
        NoneIdle(rest, inflight);
      }
    }
  }

  lemma PlacedClose(held: multiset<Id>, closes: map<Id, nat>, x: Id)
    requires Placed(held, closes) && x in held
    ensures Placed(held - multiset{x}, ClosedOnce(closes, x))
  {
    assert held[x] == 1;
  }

  /** The state in which _close_idle_retired is called by call `c`; `counted` are the calls the
      counts are about. */
  ghost predicate AtClose(s: State, c: Id, x: Id, counted: map<Id, Call>) {
    && Placed(Held(s.deployment, s.disposal, s.cache, s.retired), s.closes)
    && Ids(s.calls, s.closes, s.next)
    && Counted(counted, s.inflight)
    && OnlyIdle(s.retired, s.inflight, x)
    && OneAtATime(s.calls)
    && Served(s.calls, s.deployment, s.builtFor)
    && Cached(s.cache, s.builtFor, s.cacheSize, s.closes)
    && (s.disposal.NotYet? ==> Safe(counted, s.closes))
    && Recent(Keys(s.cache), s.history, s.cacheSize)
    && (s.deployment.Some? ==> s.deployment.value in s.closes)
    && c in s.calls && s.calls[c].phase.Using?
  }

  function Next(call: Call, x: Id, before: bool): Call {
    call.(phase := if before then Before(x, []) else After(x, []))
  }

  lemma NoneWasIdle(retired: seq<Id>, inflight: map<Id, nat>)
    requires Idle(retired, inflight) == []
    ensures Waiting(retired, inflight)
  {
    var idle := Idle(retired, inflight);
    forall p | p in retired ensures p in inflight {
      assert p !in idle;
    }
  }

  lemma OneLess(retired: seq<Id>, inflight: map<Id, nat>, x: Id)
    requires Idle(retired, inflight) == [x]
    ensures multiset(Busy(retired, inflight)) == multiset(retired) - multiset{x} && x in retired && x !in inflight
  {
    IdleAndBusy(retired, inflight);
    assert x in Idle(retired, inflight);
    assert multiset([x]) == multiset{x};
  }

  /** Closing what nobody uses leaves whoever uses something safe. */
  lemma CloseIdleSafe(counted: map<Id, Call>, inflight: map<Id, nat>, closes: map<Id, nat>, x: Id)
    requires Counted(counted, inflight) && Safe(counted, closes) && x !in inflight
    ensures Safe(counted, ClosedOnce(closes, x))
  {
    NobodyUses(counted, inflight, x);
  }

  lemma CloseIdleCounted(calls: map<Id, Call>, inflight: map<Id, nat>, c: Id, x: Id, before: bool)
    requires c in calls && calls[c].phase.Using?
    requires Counted(if before then calls else calls - {c}, inflight)
    ensures Counted(calls[c := Next(calls[c], x, before)], inflight)
  {
    var call := Next(calls[c], x, before);
    if before {
      PhaseCounts(calls, inflight, c, call);
    } else {
      AfterCounts(calls - {c}, inflight, c, call);
      assert (calls - {c})[c := call] == calls[c := call];
    }
  }

  lemma CloseIdleSafeAgain(calls: map<Id, Call>, closes: map<Id, nat>, c: Id, x: Id, before: bool)
    requires c in calls && calls[c].phase.Using?
    requires Safe(if before then calls else calls - {c}, closes)
    ensures Safe(calls[c := Next(calls[c], x, before)], closes)
  {
    var counted := if before then calls else calls - {c};
    forall d | d in calls && (before || d != c) ensures d in counted && counted[d] == calls[d] {}
  }

  lemma CloseIdleOthers(s: State, c: Id, call: Call, x: Id)
    requires c in s.calls && call.key == s.calls[c].key && call.provider == s.calls[c].provider && Alone(call.phase)
    requires Ids(s.calls, s.closes, s.next) && x in s.closes && OneAtATime(s.calls)
    requires Served(s.calls, s.deployment, s.builtFor)
    requires Cached(s.cache, s.builtFor, s.cacheSize, s.closes)
    ensures var calls, closes := s.calls[c := call], ClosedOnce(s.closes, x);
            && Ids(calls, closes, s.next) && OneAtATime(calls) && Served(calls, s.deployment, s.builtFor)
            && Cached(s.cache, s.builtFor, s.cacheSize, closes)
  {}

  lemma HeldOnce(held: multiset<Id>, closes: map<Id, nat>, x: Id)
    requires Placed(held, closes)
    ensures held[x] <= 1 && (x in held ==> x in closes)
  {}

  lemma CloseNoneKeeps(s: State, c: Id, x: Id, before: bool)
    requires AtClose(s, c, x, if before then s.calls else s.calls - {c})
    requires Idle(s.retired, s.inflight) == []
    ensures Inv(CloseIdle(s, c, before))
  {
    NoneWasIdle(s.retired, s.inflight);
    assert before ==> s.calls[c := s.calls[c].(phase := Using)] == s.calls;
  }

  lemma CloseOnePlaced(s: State, x: Id)
    requires Placed(Held(s.deployment, s.disposal, s.cache, s.retired), s.closes)
    requires Idle(s.retired, s.inflight) == [x]
    ensures Placed(Held(s.deployment, s.disposal, s.cache, Busy(s.retired, s.inflight)), ClosedOnce(s.closes, x))
    ensures x in s.closes
  {
    var held := Held(s.deployment, s.disposal, s.cache, s.retired);
    OneLess(s.retired, s.inflight, x);
    assert x in multiset(s.retired);
    assert held[x] == 1;
    assert Held(s.deployment, s.disposal, s.cache, Busy(s.retired, s.inflight)) == held - multiset{x};
    PlacedClose(held, s.closes, x);
  }

  lemma CloseOneKeeps(s: State, c: Id, x: Id, before: bool)
    requires AtClose(s, c, x, if before then s.calls else s.calls - {c})
    requires Idle(s.retired, s.inflight) == [x]
    ensures Inv(CloseIdle(s, c, before))
  {
    var call, closes := Next(s.calls[c], x, before), ClosedOnce(s.closes, x);
    CloseOnePlaced(s, x);
    OneLess(s.retired, s.inflight, x);
    CloseIdleCounted(s.calls, s.inflight, c, x, before);
    CloseIdleOthers(s, c, call, x);
    if s.disposal.NotYet? {
      CloseIdleSafe(if before then s.calls else s.calls - {c}, s.inflight, s.closes, x);
      CloseIdleSafeAgain(s.calls, closes, c, x, before);
    }
    assert Idle(s.retired, s.inflight)[1..] == [];
    assert CloseIdle(s, c, before) ==
      s.(retired := Busy(s.retired, s.inflight), closes := closes, calls := s.calls[c := call]);
  }

  lemma RetiredOnce(s: State, x: Id)
    requires Placed(Held(s.deployment, s.disposal, s.cache, s.retired), s.closes)
    ensures multiset(s.retired)[x] <= 1
  {
    assert Held(s.deployment, s.disposal, s.cache, s.retired)[x] <= 1;
  }

  lemma CloseIdleKeeps(s: State, c: Id, x: Id, before: bool)
    requires AtClose(s, c, x, if before then s.calls else s.calls - {c})
    ensures Inv(CloseIdle(s, c, before))
  {
    RetiredOnce(s, x);
    IdleIsOne(s.retired, s.inflight, x);
    if Idle(s.retired, s.inflight) == [] {
      CloseNoneKeeps(s, c, x, before);
    } else {
      CloseOneKeeps(s, c, x, before);
    }
  }

  // ------------------------------------------------------------------ _provider_for

  lemma ChosenIsKnown(s: State, key: Option<Key>)
    requires Inv(s) && RunOk(s, key)
    ensures var (r, p) := Resolve(s, key);
            && OwnProvider(Call(key, p, Using), r.deployment, r.builtFor)
            && (r.disposal.NotYet? ==> Unclosed(r.closes, p))
            && p < r.next && r.calls == s.calls && r.inflight == s.inflight
            && r.disposal == s.disposal && r.deployment == s.deployment && r.cacheSize == s.cacheSize
  {
    var held := Held(s.deployment, s.disposal, s.cache, s.retired);
    match Choose(s, key)
    case Shared(p) =>
      if s.disposal.NotYet? {
        assert p in Pending(s.deployment, s.disposal);
        assert held[p] > 0;
      }
    case Hit(i) =>
      var p := s.cache[i].provider;
      assert Providers(s.cache)[i] == p;
      assert p in Providers(s.cache);
      assert held[p] > 0;
    case Build =>
  }

  lemma MissKeys(s: State, key: Key)
    requires Find(s.cache, key) == |s.cache|
    ensures key !in Keys(s.cache)
  {}

  lemma BuildRecent(s: State, key: Key, cache: seq<Entry>)
    requires Recent(Keys(s.cache), s.history, s.cacheSize) && key !in Keys(s.cache)
    requires |s.cache| <= Capacity(s.cacheSize)
    requires var grown := s.cache + [Entry(key, s.next)];
             cache == if |grown| > s.cacheSize then grown[1..] else grown
    ensures Recent(Keys(cache), s.history + [key], s.cacheSize)
  {
    var grown := s.cache + [Entry(key, s.next)];
    assert Keys(grown) == Keys(s.cache) + [key];
    if |grown| > s.cacheSize {
      assert Keys(cache) == Keys(grown)[1..];
      RecentEvict(Keys(s.cache), s.history, s.cacheSize, key);
    } else {
      RecentGrow(Keys(s.cache), s.history, s.cacheSize, key);
    }
  }

  lemma ResolveRecent(s: State, key: Option<Key>)
    requires Recent(Keys(s.cache), s.history, s.cacheSize) && |s.cache| <= Capacity(s.cacheSize)
    requires RunOk(s, key)
    ensures var r := Resolve(s, key).0; Recent(Keys(r.cache), r.history, r.cacheSize)
  {
    var r := Resolve(s, key).0;
    match Choose(s, key)
    case Shared(p) =>
    case Hit(i) =>
      MoveToEndKeeps(s.cache, i);
      RecentHit(Keys(s.cache), s.history, s.cacheSize, i, Keys(r.cache));
    case Build =>
      MissKeys(s, key.value);
      BuildRecent(s, key.value, r.cache);
  }

  /** A built provider goes into the cache and at most one other leaves it for the retired list:
      nothing is lost and nothing is in two places. */
  lemma BuildHeld(cache: seq<Entry>, e: Entry, retired: seq<Id>)
    ensures multiset(Providers(cache + [e])) == multiset(Providers(cache)) + multiset{e.provider}
    ensures multiset(Providers((cache + [e])[1..])) + multiset(retired + [(cache + [e])[0].provider])
         == multiset(Providers(cache)) + multiset{e.provider} + multiset(retired)
  {
    var grown := cache + [e];
    assert Providers(grown) == Providers(cache) + [e.provider];
    assert Providers(grown) == [grown[0].provider] + Providers(grown[1..]);
  }

  lemma PlacedBuild(held: multiset<Id>, closes: map<Id, nat>, p: Id)
    requires Placed(held, closes) && p !in closes
    ensures Placed(held + multiset{p}, closes[p := 0])
  {}

  lemma HitPlaced(s: State, i: nat)
    requires Placed(Held(s.deployment, s.disposal, s.cache, s.retired), s.closes) && i < |s.cache|
    ensures Placed(Held(s.deployment, s.disposal, MoveToEnd(s.cache, i), s.retired), s.closes)
  {
    MoveToEndKeeps(s.cache, i);
  }

  lemma BuildPlaced(s: State, e: Entry, r: State)
    requires Placed(Held(s.deployment, s.disposal, s.cache, s.retired), s.closes) && e.provider !in s.closes
    requires r.deployment == s.deployment && r.disposal == s.disposal && r.closes == s.closes[e.provider := 0]
    requires var grown := s.cache + [e];
             || (r.cache == grown && r.retired == s.retired)
             || (r.cache == grown[1..] && r.retired == s.retired + [grown[0].provider])
    ensures Placed(Held(r.deployment, r.disposal, r.cache, r.retired), r.closes)
  {
    var held := Held(s.deployment, s.disposal, s.cache, s.retired);
    BuildHeld(s.cache, e, s.retired);
    var listed := multiset(Providers(r.cache)) + multiset(r.retired);
    assert listed == multiset(Providers(s.cache)) + multiset{e.provider} + multiset(s.retired);
    assert Held(r.deployment, r.disposal, r.cache, r.retired) == multiset(Pending(s.deployment, s.disposal)) + listed;
    PlacedBuild(held, s.closes, e.provider);
  }

  lemma ResolvePlaced(s: State, key: Option<Key>)
    requires Placed(Held(s.deployment, s.disposal, s.cache, s.retired), s.closes) && Ids(s.calls, s.closes, s.next)
    requires RunOk(s, key)
    ensures var r := Resolve(s, key).0; Placed(Held(r.deployment, r.disposal, r.cache, r.retired), r.closes)
  {
    match Choose(s, key)
    case Shared(p) =>
    case Hit(i) => HitPlaced(s, i);
    case Build => BuildPlaced(s, Entry(key.value, s.next), Resolve(s, key).0);
  }

  lemma MoveToEndCached(cache: seq<Entry>, i: nat, builtFor: map<Id, Key>, size: int, closes: map<Id, nat>)
    requires Cached(cache, builtFor, size, closes) && i < |cache|
    ensures Cached(MoveToEnd(cache, i), builtFor, size, closes)
  {
    assert Moved(cache, i, MoveToEnd(cache, i));
  }

  lemma ResolveCached(s: State, key: Option<Key>)
    requires Cached(s.cache, s.builtFor, s.cacheSize, s.closes) && Ids(s.calls, s.closes, s.next)
    requires RunOk(s, key)
    ensures var r := Resolve(s, key).0; Cached(r.cache, r.builtFor, r.cacheSize, r.closes)
  {
    match Choose(s, key)
    case Shared(p) =>
    case Hit(i) => MoveToEndCached(s.cache, i, s.builtFor, s.cacheSize, s.closes);
    case Build =>
  }

  lemma ResolveOthers(s: State, key: Option<Key>)
    requires Ids(s.calls, s.closes, s.next) && Served(s.calls, s.deployment, s.builtFor) && RunOk(s, key)
    requires s.deployment.Some? ==> s.deployment.value in s.closes
    requires forall p <- s.builtFor :: p in s.closes
    ensures var r := Resolve(s, key).0;
            && Ids(r.calls, r.closes, r.next)
            && Served(r.calls, r.deployment, r.builtFor)
            && (r.deployment.Some? ==> r.deployment.value in r.closes)
  {}

  lemma ResolveSafe(s: State, key: Option<Key>)
    requires Ids(s.calls, s.closes, s.next) && Safe(s.calls, s.closes) && RunOk(s, key)
    ensures Safe(s.calls, Resolve(s, key).0.closes)
  {
    forall c | c in s.calls && !s.calls[c].phase.After?
      ensures Unclosed(Resolve(s, key).0.closes, s.calls[c].provider)
    {
      assert Unclosed(s.closes, s.calls[c].provider);
    }
  }

  /** Only the provider just evicted can be idle, and not the one just built. */
  lemma ResolveIdle(s: State, key: Option<Key>) returns (x: Id)
    requires Inv(s) && RunOk(s, key)
    ensures OnlyIdle(Resolve(s, key).0.retired, s.inflight, x)
  {
    var r := Resolve(s, key).0;
    x := if r.retired == s.retired then 0 else r.retired[|r.retired| - 1];
  }

  // ------------------------------------------------------------------ the steps

  /** A new call is added to what _provider_for left. */
  lemma CallAdded(r: State, call: Call)
    requires Ids(r.calls, r.closes, r.next) && call.phase.Using?
    requires OneAtATime(r.calls) && Served(r.calls, r.deployment, r.builtFor)
    requires OwnProvider(call, r.deployment, r.builtFor)
    ensures var calls := r.calls[r.next := call];
            Ids(calls, r.closes, r.next + 1) && OneAtATime(calls) && Served(calls, r.deployment, r.builtFor)
  {}

  lemma CallSafe(r: State, call: Call)
    requires Safe(r.calls, r.closes) && Unclosed(r.closes, call.provider)
    ensures Safe(r.calls[r.next := call], r.closes)
  {}

  lemma StillOnlyIdle(retired: seq<Id>, inflight: map<Id, nat>, x: Id, p: Id)
    requires OnlyIdle(retired, inflight, x)
    ensures OnlyIdle(retired, Acquire(inflight, p), x)
  {}

  lemma RunCloses(s: State, key: Option<Key>, r: State, p: Id) returns (x: Id)
    requires Inv(s) && RunOk(s, key) && Resolve(s, key) == (r, p)
    ensures var c, call := r.next, Call(key, p, Using);
            var mid := r.(inflight := Acquire(r.inflight, p), calls := r.calls[c := call], next := c + 1);
            AtClose(mid, c, x, mid.calls)
  {
    var call := Call(key, p, Using);
    ChosenIsKnown(s, key);
    ResolvePlaced(s, key);
    ResolveRecent(s, key);
    ResolveCached(s, key);
    ResolveOthers(s, key);
    CallAdded(r, call);
    if s.disposal.NotYet? {
      ResolveSafe(s, key);
      CallSafe(r, call);
    }
    x := ResolveIdle(s, key);
    AcquireCounts(r.calls, r.inflight, r.next, call);
    StillOnlyIdle(r.retired, r.inflight, x, p);
  }

  lemma RunIsCloseIdle(s: State, key: Option<Key>, r: State, p: Id)
    requires RunOk(s, key) && Resolve(s, key) == (r, p)
    ensures Run(s, key) == CloseIdle(
      r.(inflight := Acquire(r.inflight, p), calls := r.calls[r.next := Call(key, p, Using)], next := r.next + 1),
      r.next, true)
  {}

  lemma RunKeepsInv(s: State, key: Option<Key>)
    requires Inv(s) && RunOk(s, key)
    ensures Inv(Run(s, key))
  {
    var (r, p) := Resolve(s, key);
    var x := RunCloses(s, key, r, p);
    RunIsCloseIdle(s, key, r, p);
    var calls := r.calls[r.next := Call(key, p, Using)];
    Concluded(r.(inflight := Acquire(r.inflight, p), calls := calls, next := r.next + 1),
              r.next, x, Run(s, key));
  }

  lemma Concluded(mid: State, c: Id, x: Id, s': State)
    requires AtClose(mid, c, x, mid.calls) && s' == CloseIdle(mid, c, true)
    ensures Inv(s')
  {
    CloseIdleKeeps(mid, c, x, true);
  }

  lemma ClosedKeepsInv(s: State, c: Id)
    requires Inv(s) && ClosedOk(s, c)
    ensures Inv(Closed(s, c))
    ensures Closed(s, c).closes == s.closes
  {
    var call := s.calls[c];
    assert Alone(call.phase);
    match call.phase
    case Before(_, rest) => PhaseCounts(s.calls, s.inflight, c, call.(phase := Using));
    case After(_, rest) =>
      forall p ensures |Users(s.calls - {c}, p)| == |Users(s.calls, p)| { UsersRemove(s.calls, c, p); }
    case Using => assert false;
  }

  lemma FinishKeepsInv(s: State, c: Id)
    requires Inv(s) && FinishOk(s, c)
    ensures Inv(Finish(s, c))
  {
    var p := s.calls[c].provider;
    ReleaseCounts(s.calls, s.inflight, c);
    var mid := s.(inflight := Release(s.inflight, p));
    assert OnlyIdle(mid.retired, mid.inflight, p);
    CloseIdleKeeps(mid, c, p, false);
  }

  lemma DisposeKeepsInv(s: State)
    requires Inv(s) && DisposeOk(s)
    ensures Inv(Dispose(s))
  {
    var s' := Dispose(s);
    assert Held(s.deployment, s.disposal, s.cache, s.retired) == Held(s'.deployment, s'.disposal, s'.cache, s'.retired);
  }

  lemma DisposeNextKeepsInv(s: State)
    requires Inv(s) && DisposeNextOk(s)
    ensures Inv(DisposeNext(s))
  {
    var s' := DisposeNext(s);
    var x := s.disposal.rest[0];
    var held := Held(s.deployment, s.disposal, s.cache, s.retired);
    assert s.disposal.rest == [x] + s'.disposal.rest;
    assert held - multiset{x} == Held(s'.deployment, s'.disposal, s'.cache, s'.retired);
    PlacedClose(held, s.closes, x);
    assert held[x] == 1;
  }

  lemma StepKeeps(s: State, e: Event)
    requires Inv(s) && Enabled(s, e)
    ensures Inv(Step(s, e))
  {
    match e
    case DoRun(key) => RunKeepsInv(s, key);
    case DoClosed(c) => ClosedKeepsInv(s, c);
    case DoFinish(c) => FinishKeepsInv(s, c);
    case DoDispose => DisposeKeepsInv(s);
    case DoDisposeNext => DisposeNextKeepsInv(s);
  }

  lemma InitKeeps(cacheSize: int, deployment: bool, hasFactory: bool)
    ensures Inv(Init(cacheSize, deployment, hasFactory))
  {}
}
