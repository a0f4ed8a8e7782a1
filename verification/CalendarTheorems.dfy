/** What holds after every sequence of steps of CalendarState. */
module CalendarTheorems {
  import opened Wrappers
  import opened CalendarState
  import opened CalendarInvariant
  import opened CalendarSteps

  predicate Legal(s: State, es: seq<Event>)
    decreases |es|, 0
  {
    es == [] || (Legal(s, es[..|es| - 1]) && Enabled(After(s, es[..|es| - 1]), es[|es| - 1]))
  }

  function After(s: State, es: seq<Event>): State
    requires Legal(s, es)
    decreases |es|, 1
  {
    if es == [] then s else Step(After(s, es[..|es| - 1]), es[|es| - 1])
  }

  lemma {:induction false} RunKeeps(s: State, es: seq<Event>)
    requires Inv(s) && Legal(s, es)
    ensures Inv(After(s, es))
    decreases |es|
  {
    if es != [] {
      RunKeeps(s, es[..|es| - 1]);
      StepKeeps(After(s, es[..|es| - 1]), es[|es| - 1]);
    }
  }

  ghost predicate Reached(s: State) {
    exists size, deployment, factory, es ::
      Legal(Init(size, deployment, factory), es) && s == After(Init(size, deployment, factory), es)
  }

  lemma ReachedInv(s: State)
    requires Reached(s)
    ensures Inv(s)
  {
    var size, deployment, factory, es :|
      Legal(Init(size, deployment, factory), es) && s == After(Init(size, deployment, factory), es);
    InitKeeps(size, deployment, factory);
    RunKeeps(Init(size, deployment, factory), es);
  }

  // ------------------------------------------------------------------ closing

  /** Before aclose, no provider that a call holds has been closed. */
  lemma NeverClosedInUse(s: State, c: Id)
    requires Reached(s) && s.disposal.NotYet?
    requires c in s.calls && !s.calls[c].phase.After?
    ensures s.calls[c].provider in s.closes && s.closes[s.calls[c].provider] == 0
  {
    ReachedInv(s);
  }

  /** With an aclose at any point too, nothing is closed twice. */
  lemma NeverClosedTwice(s: State, p: Id)
    requires Reached(s) && p in s.closes
    ensures s.closes[p] <= 1
  {
    ReachedInv(s);
  }

  /** What is not closed is exactly what somebody will still find: the deployment's own provider,
      or what aclose has left to do, the cached ones and the retired ones, each listed once. */
  lemma UnclosedIsListed(s: State, p: Id)
    requires Reached(s)
    ensures (p in s.closes && s.closes[p] == 0) <==>
            (p in Pending(s.deployment, s.disposal) || p in Providers(s.cache) || p in s.retired)
    ensures multiset(Providers(s.cache))[p] + multiset(s.retired)[p]
            + multiset(Pending(s.deployment, s.disposal))[p] <= 1
  {
    ReachedInv(s);
    var held := Held(s.deployment, s.disposal, s.cache, s.retired);
    assert held[p] > 0 <==> Unclosed(s.closes, p);
    assert p in Pending(s.deployment, s.disposal) <==> p in multiset(Pending(s.deployment, s.disposal));
    assert p in Providers(s.cache) <==> p in multiset(Providers(s.cache));
    assert p in s.retired <==> p in multiset(s.retired);
  }

  lemma FirstWaits(retired: seq<Id>, inflight: map<Id, nat>)
    requires Waiting(retired, inflight)
    ensures retired == [] || retired[0] in inflight
  {
    if retired != [] {
      var p := retired[0];
      assert p in retired;
    }
  }

  /** When no call is left every evicted provider has been closed. */
  lemma QuietMeansEvictedAreClosed(s: State, p: Id)
    requires Reached(s) && s.calls == map[] && p in s.closes
    ensures s.retired == [] && s.inflight == map[]
    ensures s.closes[p] == 1 <==> (p !in Pending(s.deployment, s.disposal) && p !in Providers(s.cache))
  {
    ReachedInv(s);
    forall q ensures q !in s.inflight {
      NobodyUses(s.calls, s.inflight, q);
    }
    assert s.inflight == map[];
    FirstWaits(s.retired, s.inflight);
    assert p !in s.retired;
    UnclosedIsListed(s, p);
    NeverClosedTwice(s, p);
  }

  // ------------------------------------------------------------------ counting

  /** The counts are the calls that hold each provider, and every retired provider is held. */
  lemma CountsAreExact(s: State, p: Id)
    requires Reached(s)
    ensures p in s.inflight <==> exists c :: c in s.calls && Uses(s.calls[c], p)
    ensures p in s.inflight ==> s.inflight[p] == |set c | c in s.calls && Uses(s.calls[c], p)| > 0
    ensures p in s.retired ==> p in s.inflight
  {
    ReachedInv(s);
    NobodyUses(s.calls, s.inflight, p);
    assert Users(s.calls, p) == set c | c in s.calls && Uses(s.calls[c], p);
  }

  function InUse(calls: map<Id, Call>): set<Id> {
    set c | c in calls && !calls[c].phase.After?
  }

  /** The calls suspended in a close. */
  function Awaited(calls: map<Id, Call>): set<Id> {
    set c | c in calls && !calls[c].phase.Using?
  }

  function BeingClosed(calls: map<Id, Call>): set<Id> {
    set c | c in Awaited(calls) :: calls[c].phase.current
  }

  function Open(s: State): set<Id> {
    (set p | p in s.closes && s.closes[p] == 0) + BeingClosed(s.calls)
  }

  lemma {:induction false} UsersOfEach(calls: map<Id, Call>, providers: set<Id>, users: set<Id>)
    requires users <= calls.Keys
    requires forall p <- providers :: exists c :: c in users && calls[c].provider == p
    ensures |providers| <= |users|
  {
    if providers != {} {
      var p := Member(providers);
      var c :| c in users && calls[c].provider == p;
      forall q | q in providers - {p} ensures exists d :: d in users - {c} && calls[d].provider == q {
        var d :| d in users && calls[d].provider == q;
        assert d in users - {c};
      }
      UsersOfEach(calls, providers - {p}, users - {c});
    }
  }

  function Elements(s: seq<Id>): set<Id> { set p | p in s }

  lemma {:induction false} FewElements(s: seq<Id>)
    ensures |Elements(s)| <= |s|
  {
    if s != [] {
      FewElements(s[1..]);
      assert Elements(s) == {s[0]} + Elements(s[1..]);
    }
  }

  lemma {:induction false} FewImages(calls: map<Id, Call>, cs: set<Id>, ps: set<Id>)
    requires cs <= Awaited(calls) && ps == set c | c in cs :: calls[c].phase.current
    ensures |ps| <= |cs|
  {
    if cs != {} {
      var c := Member(cs);
      var fewer := set d | d in cs - {c} :: calls[d].phase.current;
      FewImages(calls, cs - {c}, fewer);
      assert ps == fewer + {calls[c].phase.current};
    }
  }

  lemma RetiredAreFew(s: State)
    requires Reached(s)
    ensures |Elements(s.retired)| <= |InUse(s.calls)|
  {
    forall p | p in Elements(s.retired) ensures exists c :: c in InUse(s.calls) && s.calls[c].provider == p {
      CountsAreExact(s, p);
      var c :| c in s.calls && Uses(s.calls[c], p);
      assert c in InUse(s.calls);
    }
    UsersOfEach(s.calls, Elements(s.retired), InUse(s.calls));
  }

  lemma Union(a: set<Id>, b: set<Id>)
    ensures |a + b| <= |a| + |b|
  {
    assert |a + b| == |a| + |b| - |a * b|;
  }

  lemma UnclosedAre(s: State)
    requires Reached(s)
    ensures (set p | p in s.closes && s.closes[p] == 0) ==
            Elements(Pending(s.deployment, s.disposal)) + Elements(Providers(s.cache)) + Elements(s.retired)
  {
    forall p ensures (p in s.closes && s.closes[p] == 0) <==>
                     p in Elements(Pending(s.deployment, s.disposal)) + Elements(Providers(s.cache))
                          + Elements(s.retired)
    {
      UnclosedIsListed(s, p);
    }
  }

  lemma CacheIsBounded(s: State)
    requires Reached(s)
    ensures |s.cache| <= Capacity(s.cacheSize)
  {
    ReachedInv(s);
  }

  lemma FourParts(a: set<Id>, b: set<Id>, c: set<Id>, d: set<Id>)
    ensures |a + b + c + d| <= |a| + |b| + |c| + |d|
  {
    Union(a, b);
    Union(a + b, c);
    Union(a + b + c, d);
  }

  /** Providers holding clients open: the deployment's, a full cache, one for each call in flight
      and one for each close that is being awaited. */
  lemma OpenAreBounded(s: State)
    requires Reached(s) && s.disposal.NotYet?
    ensures |Open(s)| <= 1 + Capacity(s.cacheSize) + |InUse(s.calls)| + |Awaited(s.calls)|
  {
    var own, cached, retired := Pending(s.deployment, s.disposal), Providers(s.cache), s.retired;
    UnclosedAre(s);
    CacheIsBounded(s);
    FewElements(own);
    FewElements(cached);
    RetiredAreFew(s);
    FewImages(s.calls, Awaited(s.calls), BeingClosed(s.calls));
    FourParts(Elements(own), Elements(cached), Elements(retired), BeingClosed(s.calls));
  }

  // ------------------------------------------------------------------ the cache

  /** The cache holds the keys used last, in the order of their last use, as many as it may. */
  lemma CacheIsMostRecent(s: State)
    requires Reached(s)
    ensures |s.cache| <= Capacity(s.cacheSize)
    ensures forall i, j :: 0 <= i < j < |s.cache| ==>
              LastUse(s.history, Keys(s.cache)[i]) < LastUse(s.history, Keys(s.cache)[j])
    ensures forall k <- Keys(s.cache) :: k in s.history
    ensures forall k, i :: k in s.history && k !in Keys(s.cache) && 0 <= i < |s.cache| ==>
              LastUse(s.history, k) < LastUse(s.history, Keys(s.cache)[i])
    ensures |s.cache| < Capacity(s.cacheSize) ==> (forall k <- s.history :: k in Keys(s.cache))
  {
    ReachedInv(s);
    var keys := Keys(s.cache);
    forall k, i | k in s.history && k !in keys && 0 <= i < |keys|
      ensures LastUse(s.history, k) < LastUse(s.history, keys[i])
    {
      assert Older(k, keys, s.history);
      assert LastUse(s.history, keys[0]) <= LastUse(s.history, keys[i]);
    }
  }

  /** Nobody is ever served with somebody else's credentials. */
  lemma CallsUseTheirOwnProvider(s: State, c: Id)
    requires Reached(s) && c in s.calls
    ensures s.calls[c].key.None? ==> s.deployment == Some(s.calls[c].provider)
    ensures s.calls[c].key.Some? ==>
              s.calls[c].provider in s.builtFor && s.builtFor[s.calls[c].provider] == s.calls[c].key.value
  {
    ReachedInv(s);
    assert OwnProvider(s.calls[c], s.deployment, s.builtFor);
  }

  // ------------------------------------------------------------------ who is served, and by what

  /** Only a caller there is nothing for is refused: one without an identity where the deployment has
      no provider, one with an identity where there is no factory.  However full the cache is. */
  lemma ServedExactly(s: State, key: Option<Key>)
    ensures RunOk(s, key) <==> if key.None? then s.deployment.Some? else s.hasFactory
  {}

  /** The call a `run` adds. */
  predicate Started(s: State, s': State, c: Id, key: Option<Key>, p: Id) {
    && c !in s.calls && s'.calls.Keys == s.calls.Keys + {c}
    && s'.calls[c].key == key && s'.calls[c].provider == p && !s'.calls[c].phase.After?
  }

  lemma ResolveCalls(s: State, key: Option<Key>)
    requires RunOk(s, key)
    ensures Resolve(s, key).0.calls == s.calls && s.next <= Resolve(s, key).0.next
  {}

  lemma CloseIdleAdds(s: State, c: Id)
    requires c in s.calls && !s.calls[c].phase.After?
    ensures var s' := CloseIdle(s, c, true);
      && s'.calls.Keys == s.calls.Keys && s'.cache == s.cache && s'.builtFor == s.builtFor
      && s'.calls[c] == s.calls[c].(phase := s'.calls[c].phase) && !s'.calls[c].phase.After?
  {}

  lemma RunAdds(s: State, key: Option<Key>, r: State, p: Id)
    requires Inv(s) && RunOk(s, key) && Resolve(s, key) == (r, p)
    ensures var s' := Run(s, key);
      Started(s, s', r.next, key, p) && s'.cache == r.cache && s'.builtFor == r.builtFor
  {
    ResolveCalls(s, key);
    RunIsCloseIdle(s, key, r, p);
    var calls := r.calls[r.next := Call(key, p, Using)];
    CloseIdleAdds(r.(inflight := Acquire(r.inflight, p), calls := calls, next := r.next + 1), r.next);
  }

  /** `run` serves a caller without an identity with the deployment's provider, ... */
  lemma RunShares(s: State)
    requires Reached(s) && s.deployment.Some?
    ensures var s' := Run(s, None);
      && Started(s, s', s.next, None, s.deployment.value)
      && s'.cache == s.cache && s'.builtFor == s.builtFor
  {
    ReachedInv(s);
    RunAdds(s, None, s, s.deployment.value);
  }

  lemma KeysOnce(s: State)
    requires Recent(Keys(s.cache), s.history, s.cacheSize)
    ensures forall i, j :: 0 <= i < j < |s.cache| ==> s.cache[i].key != s.cache[j].key
  {
    forall i, j | 0 <= i < j < |s.cache| ensures s.cache[i].key != s.cache[j].key {
      assert LastUse(s.history, Keys(s.cache)[i]) < LastUse(s.history, Keys(s.cache)[j]);
    }
  }

  /** ... one whose key is cached with the provider cached for it, and nothing is built, ... */
  lemma RunHits(s: State, k: Key, i: nat)
    requires Reached(s) && s.hasFactory && i < |s.cache| && s.cache[i].key == k
    ensures var s' := Run(s, Some(k));
      && Started(s, s', s.next, Some(k), s.cache[i].provider)
      && s'.cache == s.cache[..i] + s.cache[i + 1..] + [s.cache[i]] && s'.builtFor == s.builtFor
  {
    ReachedInv(s);
    KeysOnce(s);
    assert Find(s.cache, k) == i;
    var (r, p) := Resolve(s, Some(k));
    RunAdds(s, Some(k), r, p);
  }

  /** ... and any other with one built for it: while there is room nobody goes, and otherwise exactly
      the oldest, which is closed at once or retired until its last call ends. */
  lemma RunBuilds(s: State, k: Key)
    requires Reached(s) && s.hasFactory && k !in Keys(s.cache)
    ensures var s' := Run(s, Some(k)); var grown := s.cache + [Entry(k, s.next)];
      && Started(s, s', s.next + 1, Some(k), s.next)
      && s'.builtFor == s.builtFor[s.next := k]
      && if |s.cache| < Capacity(s.cacheSize) then s'.cache == grown
         else s'.cache == grown[1..] && Leaves(s', grown[0].provider)
  {
    ReachedInv(s);
    FoundInKeys(s.cache, k);
    var (r, p) := Resolve(s, Some(k));
    RunAdds(s, Some(k), r, p);
    if |s.cache| >= Capacity(s.cacheSize) {
      EvictedGoes(s, k, r, p, (s.cache + [Entry(k, s.next)])[0].provider);
    }
  }

  /** An evicted provider: retired while a call holds it, closed otherwise. */
  predicate Leaves(s: State, p: Id) {
    if p in s.inflight then p in s.retired else p in s.closes && s.closes[p] == 1
  }

  lemma EvictedGoes(s: State, k: Key, r: State, p: Id, x: Id)
    requires Inv(s) && RunOk(s, Some(k)) && Resolve(s, Some(k)) == (r, p)
    requires r.retired == s.retired + [x]
    ensures Leaves(Run(s, Some(k)), x)
  {
    var y := RunCloses(s, Some(k), r, p);
    RunIsCloseIdle(s, Some(k), r, p);
    RunKeepsInv(s, Some(k));
    var mid := r.(inflight := Acquire(r.inflight, p), calls := r.calls[r.next := Call(Some(k), p, Using)],
                  next := r.next + 1);
    RetiredIsOpen(mid, x);
    assert r.retired[|s.retired|] == x;
    if x !in mid.inflight {
      assert x in Idle(mid.retired, mid.inflight);
      RetiredOnce(mid, y);
      IdleIsOne(mid.retired, mid.inflight, y);
    }
  }

  lemma RetiredIsOpen(s: State, x: Id)
    requires Placed(Held(s.deployment, s.disposal, s.cache, s.retired), s.closes) && x in s.retired
    ensures Unclosed(s.closes, x)
  {
    assert x in multiset(s.retired);
    assert Held(s.deployment, s.disposal, s.cache, s.retired)[x] > 0;
  }

  // ------------------------------------------------------------------ the limit of the promise

  predicate ClosedAlready(closes: map<Id, nat>, p: Id) { p in closes && closes[p] == 1 }

  lemma Next(s: State, e: Event)
    requires Reached(s) && Enabled(s, e)
    ensures Reached(Step(s, e))
  {
    var size, deployment, factory, es :|
      Legal(Init(size, deployment, factory), es) && s == After(Init(size, deployment, factory), es);
    var i := Init(size, deployment, factory);
    assert (es + [e])[..|es|] == es;
    assert Legal(i, es + [e]) && After(i, es + [e]) == Step(s, e);
  }

  /** aclose does not look at the counts: a call in flight when it runs can have its provider closed
      under it. */
  lemma AcloseClosesInUse()
    ensures exists s, c :: Reached(s) && FinishOk(s, c) && ClosedAlready(s.closes, s.calls[c].provider)
  {
    var s := Init(1, true, false);
    assert Legal(s, []) && After(s, []) == s;
    Next(s, DoRun(None));
    var s1 := Run(s, None);
    assert s1.calls == map[1 := Call(None, 0, Using)] && s1.closes == map[0 := 0] && s1.retired == [] && s1.cache == [];
    Next(s1, DoDispose);
    var s2 := Dispose(s1);
    assert s2.disposal == Closing([0]);
    Next(s2, DoDisposeNext);
    var s3 := DisposeNext(s2);
    assert FinishOk(s3, 1) && ClosedAlready(s3.closes, s3.calls[1].provider);
  }
}
