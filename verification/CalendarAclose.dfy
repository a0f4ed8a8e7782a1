/**
 When aclose closes a provider under a call.  It detaches everything and closes it without a look
 at the counts; everything else closes only what no call holds.
*/
module CalendarAclose {
  import opened Wrappers
  import opened CalendarState
  import opened CalendarInvariant
  import opened CalendarSteps
  import opened Theorems = CalendarTheorems

  predicate Holds(s: State, c: Id) { c in s.calls && !s.calls[c].phase.After? }

  predicate Listed(s: State, p: Id) {
    p in Pending(s.deployment, s.disposal) || p in Providers(s.cache) || p in s.retired
  }

  /** A call's provider is closed exactly if nobody is left who would still close it. */
  lemma ClosedInUseExactly(s: State, c: Id)
    requires Reached(s) && Holds(s, c)
    ensures s.calls[c].provider in s.closes
    ensures s.closes[s.calls[c].provider] == 1 <==> !Listed(s, s.calls[c].provider)
  {
    ReachedInv(s);
    var call := s.calls[c];
    assert OwnProvider(call, s.deployment, s.builtFor);
    UnclosedIsListed(s, call.provider);
    NeverClosedTwice(s, call.provider);
  }

  // ------------------------------------------------------------------ which step does it

  /** A step that closes a provider some call holds once it is made. */
  ghost predicate ClosesInUse(s: State, e: Event)
    requires Enabled(s, e)
  {
    var s' := Step(s, e);
    exists p :: p in s.closes && p in s'.closes && s'.closes[p] > s.closes[p] && p in s'.inflight
  }

  lemma CloseIdleSpares(s: State, c: Id, before: bool)
    requires c in s.calls
    ensures var s' := CloseIdle(s, c, before);
      && s'.inflight == s.inflight
      && forall p :: p in s.closes && p in s.inflight ==> p in s'.closes && s'.closes[p] == s.closes[p]
  {
    var idle := Idle(s.retired, s.inflight);
    if idle != [] {
      var x := idle[0];
      assert x in idle;
    }
  }

  lemma RunSpares(s: State, key: Option<Key>)
    requires Inv(s) && RunOk(s, key)
    ensures !ClosesInUse(s, DoRun(key))
  {
    var (r, p) := Resolve(s, key);
    RunIsCloseIdle(s, key, r, p);
    CloseIdleSpares(r.(inflight := Acquire(r.inflight, p), calls := r.calls[r.next := Call(key, p, Using)],
                       next := r.next + 1), r.next, true);
    assert forall q :: q in s.closes ==> q in r.closes && r.closes[q] == s.closes[q];
  }

  lemma FinishSpares(s: State, c: Id)
    requires FinishOk(s, c)
    ensures !ClosesInUse(s, DoFinish(c))
  {
    CloseIdleSpares(s.(inflight := Release(s.inflight, s.calls[c].provider)), c, false);
  }

  /** Only aclose does, and exactly when a call holds the provider whose turn it is. */
  lemma OnlyAcloseClosesInUse(s: State, e: Event)
    requires Reached(s) && Enabled(s, e)
    ensures ClosesInUse(s, e) <==> (e.DoDisposeNext? && s.disposal.rest[0] in s.inflight)
  {
    ReachedInv(s);
    match e
    case DoRun(key) => RunSpares(s, key);
    case DoClosed(c) => ClosedKeepsInv(s, c);
    case DoFinish(c) => FinishSpares(s, c);
    case DoDispose =>
    case DoDisposeNext => NextIsOpen(s);
  }

  lemma NextIsOpen(s: State)
    requires Inv(s) && DisposeNextOk(s)
    ensures Unclosed(s.closes, s.disposal.rest[0])
  {
    var p := s.disposal.rest[0];
    assert p in multiset(Pending(s.deployment, s.disposal));
    assert Held(s.deployment, s.disposal, s.cache, s.retired)[p] > 0;
  }

  // ------------------------------------------------------------------ when a call of aclose is safe

  /** Some call holds a provider that has been closed. */
  predicate CutOff(s: State) {
    exists c :: c in s.calls && !s.calls[c].phase.After? && ClosedAlready(s.closes, s.calls[c].provider)
  }

  ghost predicate Path(s: State, r: State) {
    exists es :: Legal(s, es) && Theorems.After(s, es) == r
  }

  lemma PathStep(s: State, r: State, e: Event)
    requires Path(s, r) && Enabled(r, e)
    ensures Path(s, Step(r, e))
  {
    var es :| Legal(s, es) && Theorems.After(s, es) == r;
    assert (es + [e])[..|es|] == es;
    assert Legal(s, es + [e]) && Theorems.After(s, es + [e]) == Step(r, e);
  }

  lemma {:induction false} ReachedRun(s: State, es: seq<Event>)
    requires Reached(s) && Legal(s, es)
    ensures Reached(Theorems.After(s, es))
    decreases |es|
  {
    if es != [] {
      ReachedRun(s, es[..|es| - 1]);
      Theorems.Next(Theorems.After(s, es[..|es| - 1]), es[|es| - 1]);
    }
  }

  /** aclose may get to its end while the call stands still. */
  lemma {:induction false} MayCutOff(s: State, r: State, c: Id)
    requires Path(s, r) && Inv(r) && r.disposal.Closing? && Holds(r, c)
    requires r.calls[c].provider in r.disposal.rest
    ensures exists es :: Legal(s, es) && CutOff(Theorems.After(s, es))
    decreases |r.disposal.rest|
  {
    NextIsOpen(r);
    DisposeNextKeepsInv(r);
    PathStep(s, r, DoDisposeNext);
    var n := DisposeNext(r);
    if r.disposal.rest[0] == r.calls[c].provider {
      assert c in n.calls && ClosedAlready(n.closes, n.calls[c].provider);
      var es :| Legal(s, es) && Theorems.After(s, es) == n;
      assert CutOff(Theorems.After(s, es));
    } else {
      MayCutOff(s, n, c);
    }
  }

  /** The deployment's provider is shared with calls still to come. */
  lemma RunsOnDeployment(s: State)
    requires Inv(s) && s.disposal.NotYet? && s.deployment.Some?
    ensures var d := Dispose(s);
      && RunOk(d, None)
      && exists c :: Holds(Run(d, None), c) && Run(d, None).calls[c].provider in d.disposal.rest
    ensures Run(Dispose(s), None).disposal == Dispose(s).disposal
  {
    var d := Dispose(s);
    var c := d.next;
    assert Idle([], Acquire(d.inflight, s.deployment.value)) == [];
    assert Run(d, None).calls[c] == Call(None, s.deployment.value, Using);
    assert d.disposal.rest[0] == s.deployment.value;
    assert Holds(Run(d, None), c);
  }

  lemma AcloseMayCutOff(s: State)
    requires Inv(s) && DisposeOk(s) && (s.deployment.Some? || exists c :: Holds(s, c))
    ensures exists es :: Legal(Dispose(s), es) && CutOff(Theorems.After(Dispose(s), es))
  {
    var d := Dispose(s);
    DisposeKeepsInv(s);
    assert Legal(d, []) && Theorems.After(d, []) == d;
    if c :| Holds(s, c) {
      HeldIsDetached(s, c);
      MayCutOff(d, d, c);
    } else {
      RunsOnDeployment(s);
      PathStep(d, d, DoRun(None));
      RunKeepsInv(d, None);
      var c :| Holds(Run(d, None), c) && Run(d, None).calls[c].provider in d.disposal.rest;
      MayCutOff(d, Run(d, None), c);
    }
  }

  lemma HeldIsDetached(s: State, c: Id)
    requires Inv(s) && DisposeOk(s) && Holds(s, c)
    ensures s.calls[c].provider in Dispose(s).disposal.rest
  {
    var p := s.calls[c].provider;
    assert Unclosed(s.closes, p);
    assert Held(s.deployment, s.disposal, s.cache, s.retired)[p] > 0;
    assert || p in multiset(Pending(s.deployment, s.disposal))
           || p in multiset(Providers(s.cache))
           || p in multiset(s.retired);
    assert p in Pending(s.deployment, s.disposal) || p in Providers(s.cache) || p in s.retired;
  }

  // ------------------------------------------------------------------ and when nothing can happen

  /** Every call holds a provider the executor still lists itself. */
  ghost predicate Kept(calls: map<Id, Call>, cache: seq<Entry>, retired: seq<Id>) {
    forall c :: c in calls && !calls[c].phase.After? ==>
      calls[c].provider in Providers(cache) || calls[c].provider in retired
  }

  lemma KeptCloseIdle(s: State, c: Id, before: bool)
    requires c in s.calls && s.calls[c].phase.Using?
    requires var counted := if before then s.calls else s.calls - {c};
      Kept(counted, s.cache, s.retired) && Counted(counted, s.inflight)
    ensures var s' := CloseIdle(s, c, before); Kept(s'.calls, s'.cache, s'.retired)
  {
    var counted := if before then s.calls else s.calls - {c};
    forall d | d in counted && !counted[d].phase.After? ensures counted[d].provider in s.inflight {
      NobodyUses(counted, s.inflight, counted[d].provider);
    }
    var s' := CloseIdle(s, c, before);
    forall d | d in s'.calls && !s'.calls[d].phase.After?
      ensures s'.calls[d].provider in Providers(s'.cache) || s'.calls[d].provider in s'.retired
    {
      assert d in counted && s'.calls[d].provider == counted[d].provider;
    }
  }

  lemma KeptHit(cache: seq<Entry>, i: nat)
    requires i < |cache|
    ensures forall p :: p in Providers(cache) ==> p in Providers(MoveToEnd(cache, i))
  {
    MoveToEndKeeps(cache, i);
    forall p | p in Providers(cache) ensures p in Providers(MoveToEnd(cache, i)) {
      assert p in multiset(Providers(MoveToEnd(cache, i)));
    }
  }

  lemma KeptBuild(cache: seq<Entry>, e: Entry)
    ensures var grown := cache + [e];
      forall p :: p in Providers(cache) || p == e.provider ==>
        p in Providers(grown) && (p in Providers(grown[1..]) || p == grown[0].provider)
  {
    var grown := cache + [e];
    ProvidersConcat(cache, [e]);
    assert Providers([e])[0] == e.provider;
    assert grown == [grown[0]] + grown[1..];
    ProvidersConcat([grown[0]], grown[1..]);
  }

  lemma KeptResolve(s: State, key: Option<Key>, r: State, p: Id)
    requires s.deployment.None? && RunOk(s, key) && Resolve(s, key) == (r, p)
    ensures p in Providers(r.cache) || p in r.retired
    ensures forall q :: q in Providers(s.cache) || q in s.retired ==> q in Providers(r.cache) || q in r.retired
    ensures r.calls == s.calls
  {
    match Choose(s, key)
    case Hit(i) =>
      KeptHit(s.cache, i);
      assert Providers(s.cache)[i] == p;
    case Build => KeptBuild(s.cache, Entry(key.value, s.next));
    case _ =>
  }

  lemma KeptRun(s: State, key: Option<Key>)
    requires Inv(s) && s.deployment.None? && RunOk(s, key) && Kept(s.calls, s.cache, s.retired)
    ensures var s' := Run(s, key); Kept(s'.calls, s'.cache, s'.retired)
  {
    var (r, p) := Resolve(s, key);
    RunIsCloseIdle(s, key, r, p);
    KeptResolve(s, key, r, p);
    var x := RunCloses(s, key, r, p);
    var calls := r.calls[r.next := Call(key, p, Using)];
    var mid := r.(inflight := Acquire(r.inflight, p), calls := calls, next := r.next + 1);
    KeptCloseIdle(mid, r.next, true);
  }

  lemma KeptFinish(s: State, c: Id)
    requires Inv(s) && FinishOk(s, c) && Kept(s.calls, s.cache, s.retired)
    ensures var s' := Finish(s, c); Kept(s'.calls, s'.cache, s'.retired)
  {
    ReleaseCounts(s.calls, s.inflight, c);
    KeptCloseIdle(s.(inflight := Release(s.inflight, s.calls[c].provider)), c, false);
  }

  lemma KeptStep(s: State, e: Event)
    requires Inv(s) && Enabled(s, e) && s.deployment.None? && s.disposal.Closing?
    requires Kept(s.calls, s.cache, s.retired)
    ensures var s' := Step(s, e); Kept(s'.calls, s'.cache, s'.retired) && s'.deployment.None? && s'.disposal.Closing?
  {
    match e
    case DoRun(key) => KeptRun(s, key);
    case DoFinish(c) => KeptFinish(s, c);
    case _ =>
  }

  lemma {:induction false} KeptAfter(s: State, es: seq<Event>)
    requires Inv(s) && Legal(s, es) && s.deployment.None? && s.disposal.Closing?
    requires Kept(s.calls, s.cache, s.retired)
    ensures var r := Theorems.After(s, es);
            Kept(r.calls, r.cache, r.retired) && r.deployment.None? && r.disposal.Closing?
    decreases |es|
  {
    if es != [] {
      KeptAfter(s, es[..|es| - 1]);
      RunKeeps(s, es[..|es| - 1]);
      KeptStep(Theorems.After(s, es[..|es| - 1]), es[|es| - 1]);
    }
  }

  lemma KeptIsOpen(s: State)
    requires Reached(s) && Kept(s.calls, s.cache, s.retired)
    ensures !CutOff(s)
  {
    forall c | Holds(s, c) ensures !ClosedAlready(s.closes, s.calls[c].provider) {
      ClosedInUseExactly(s, c);
    }
  }

  /** Called in state s, aclose cannot cut a call off, whatever happens next, exactly if no call is
      in flight and there is no deployment provider, which calls still to come would share. */
  lemma AcloseIsSafeExactly(s: State)
    requires Reached(s) && DisposeOk(s)
    ensures (forall es :: Legal(Dispose(s), es) ==> !CutOff(Theorems.After(Dispose(s), es))) <==>
            (s.deployment.None? && forall c :: !Holds(s, c))
  {
    ReachedInv(s);
    if s.deployment.Some? || exists c :: Holds(s, c) {
      AcloseMayCutOff(s);
    } else {
      Theorems.Next(s, DoDispose);
      DisposeKeepsInv(s);
      forall es | Legal(Dispose(s), es) ensures !CutOff(Theorems.After(Dispose(s), es)) {
        NobodyHolds(s);
        KeptAfter(Dispose(s), es);
        ReachedRun(Dispose(s), es);
        KeptIsOpen(Theorems.After(Dispose(s), es));
      }
    }
  }

  lemma NobodyHolds(s: State)
    requires forall c :: !Holds(s, c)
    ensures var d := Dispose(s); Kept(d.calls, d.cache, d.retired)
  {
    forall c | c in s.calls && !s.calls[c].phase.After? ensures false {
      assert Holds(s, c);
    }
  }
}
